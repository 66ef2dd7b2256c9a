/** Who owns each DDR slot: the six states, their counts, and the one transition that moves them. */
module SlotTable {

  datatype SlotState = DmaWritable | CompletedUnharvested | ReadyForNvme | NvmeBusy | RequeuePending | Free

  /** How many of the first `n` slots are in state `s`. */
  function CountState(states: seq<SlotState>, s: SlotState, n: nat): (c: nat)
    requires n <= |states|
    ensures c <= n
  {
    if n == 0 then 0 else CountState(states, s, n - 1) + (if states[n - 1] == s then 1 else 0)
  }

  lemma {:induction false} CountStateUpdate(states: seq<SlotState>, slot: nat, next: SlotState, s: SlotState, n: nat)
    requires slot < |states| && n <= |states|
    ensures CountState(states[slot := next], s, n) ==
            CountState(states, s, n) +
            if slot < n then (if next == s then 1 else 0) - (if states[slot] == s then 1 else 0) else 0
  {
    if n != 0 { CountStateUpdate(states, slot, next, s, n - 1); }
  }

  lemma {:induction false} SomeInState(states: seq<SlotState>, slot: nat, n: nat)
    requires slot < n <= |states|
    ensures CountState(states, states[slot], n) > 0
  {
    if slot != n - 1 { SomeInState(states, slot, n - 1); }
  }

  lemma {:induction false} AllCounted(states: seq<SlotState>, n: nat)
    requires n <= |states|
    ensures CountState(states, DmaWritable, n) + CountState(states, CompletedUnharvested, n) +
            CountState(states, ReadyForNvme, n) + CountState(states, NvmeBusy, n) +
            CountState(states, RequeuePending, n) + CountState(states, Free, n) == n
  {
    if n != 0 { AllCounted(states, n - 1); }
  }

  /** `storage_slot_transition` succeeds exactly then; otherwise it changes nothing. */
  predicate CanMove(states: seq<SlotState>, slot: nat, expected: SlotState, next: SlotState) {
    slot < |states| && states[slot] == expected && expected != next
  }

  /** Every count is the number of slots in that state. */
  ghost predicate CountsMatch(counts: map<SlotState, nat>, states: seq<SlotState>) {
    forall s: SlotState :: s in counts && counts[s] == CountState(states, s, |states|)
  }

  function Shift(counts: map<SlotState, nat>, from: SlotState, to: SlotState): map<SlotState, nat>
    requires from in counts && to in counts && from != to && counts[from] > 0
  {
    counts[from := counts[from] - 1][to := counts[to] + 1]
  }

  lemma MoveMatches(counts: map<SlotState, nat>, states: seq<SlotState>, slot: nat, next: SlotState)
    requires CountsMatch(counts, states) && slot < |states| && states[slot] != next
    ensures counts[states[slot]] > 0
    ensures CountsMatch(Shift(counts, states[slot], next), states[slot := next])
  {
    SomeInState(states, slot, |states|);
    forall s: SlotState
      ensures Shift(counts, states[slot], next)[s] == CountState(states[slot := next], s, |states|)
    {
      CountStateUpdate(states, slot, next, s, |states|);
    }
  }

  class Table {
    const states: array<SlotState>
    var counts: map<SlotState, nat>

    ghost predicate Valid()
      reads this, states
    {
      states.Length > 0 && CountsMatch(counts, states[..])
    }

    constructor (slots: nat)
      requires slots > 0
      ensures Valid() && fresh(states)
      ensures states[..] == seq(slots, _ => DmaWritable)
    {
      states := new SlotState[slots](_ => DmaWritable);
      counts := map[DmaWritable := slots, CompletedUnharvested := 0, ReadyForNvme := 0, NvmeBusy := 0,
                    RequeuePending := 0, Free := 0];
      new;
      forall s: SlotState
        ensures s in counts && counts[s] == CountState(states[..], s, |states[..]|)
      {
        assert s.DmaWritable? || s.CompletedUnharvested? || s.ReadyForNvme? || s.NvmeBusy? || s.RequeuePending? || s.Free?;
        Uniform(states[..], s, slots);
      }
    }

    static lemma {:induction false} Uniform(states: seq<SlotState>, s: SlotState, n: nat)
      requires n <= |states| && forall k :: 0 <= k < n ==> states[k] == DmaWritable
      ensures CountState(states, s, n) == if s == DmaWritable then n else 0
    {
      if n != 0 { Uniform(states, s, n - 1); }
    }

    /** `storage_slot_table_valid`, which never fails. */
    method CountsAddUp() returns (ok: bool)
      requires Valid()
      ensures ok
    {
      AllCounted(states[..], states.Length);
      ok := counts[DmaWritable] + counts[CompletedUnharvested] + counts[ReadyForNvme] + counts[NvmeBusy] +
            counts[RequeuePending] + counts[Free] == states.Length;
    }

    /** `storage_slot_transition`: neither an empty count nor the closing check can stop it. */
    method Transition(slot: nat, expected: SlotState, next: SlotState) returns (ok: bool)
      requires Valid()
      modifies this, states
      ensures Valid()
      ensures ok <==> CanMove(old(states[..]), slot, expected, next)
      ensures states[..] == if ok then old(states[..])[slot := next] else old(states[..])
    {
      var sound := CountsAddUp();
      if !sound || slot >= states.Length || states[slot] != expected || expected == next { return false; }
      MoveMatches(counts, states[..], slot, next);
      if counts[expected] == 0 { return false; }
      counts := Shift(counts, expected, next);
      states[slot] := next;
      assert states[..] == old(states[..])[slot := next];
      ok := CountsAddUp();
    }

    /** `storage_slot_busy_count`. */
    method BusyCount() returns (n: nat)
      requires Valid()
      ensures n == states.Length - CountState(states[..], DmaWritable, states.Length) -
                   CountState(states[..], Free, states.Length)
    {
      AllCounted(states[..], states.Length);
      n := counts[CompletedUnharvested] + counts[ReadyForNvme] + counts[NvmeBusy] + counts[RequeuePending];
    }
  }
}

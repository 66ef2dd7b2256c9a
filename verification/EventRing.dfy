/** The overwrite ring of diagnostic events, and why a copy agrees with the history of pushes. */
module EventRing {
  import opened Modular

  datatype Event = Event(time: nat, id: nat, channel: nat, arg0: nat, arg1: nat, sequence: nat)

  const NO_EVENT := Event(0, 0, 0, 0, 0, 0)

  /** A push: the event and whether it is fatal. */
  datatype Push = Push(event: Event, fatal: bool)

  // ---- The history a copy must agree with ----

  /** Push number `seq` (from 1) as it is stored. */
  function Stamped(history: seq<Push>, seq_: nat): Event
    requires 1 <= seq_ <= |history|
  {
    history[seq_ - 1].event.(sequence := seq_)
  }

  /** The pushes `first` to `last`, stamped. */
  function Stretch(history: seq<Push>, first: nat, last: nat): (r: seq<Event>)
    requires 1 <= first <= last + 1 <= |history| + 1
    ensures |r| == last + 1 - first && forall k :: 0 <= k < |r| ==> r[k] == Stamped(history, first + k)
  {
    seq(last + 1 - first, k requires 0 <= k < last + 1 - first => Stamped(history, first + k))
  }

  function FirstKept(history: seq<Push>, capacity: nat): (first: nat)
    requires capacity > 0
    ensures 1 <= first <= |history| + 1 && |history| + 1 - first <= capacity
  {
    if |history| > capacity then |history| - capacity + 1 else 1
  }

  /** The last min(n, capacity) pushes. */
  function Window(history: seq<Push>, capacity: nat): seq<Event>
    requires capacity > 0
  {
    Stretch(history, FirstKept(history, capacity), |history|)
  }

  /** The number of the first fatal push; 0 when there is none. */
  function FirstFatal(history: seq<Push>): (seq_: nat)
    ensures seq_ <= |history| && (seq_ != 0 ==> history[seq_ - 1].fatal)
    ensures forall k :: 0 <= k < |history| && history[k].fatal ==> 1 <= seq_ <= k + 1
  {
    if history == [] then 0
    else
      var before := FirstFatal(history[..|history| - 1]);
      if before != 0 then before else if history[|history| - 1].fatal then |history| else 0
  }

  /** What a copy of at most `max` events must hold: the window, oldest first, preceded by the first fatal
      event if that was overwritten and there is room for it. */
  function Expected(history: seq<Push>, capacity: nat, max: nat): seq<Event>
    requires capacity > 0
  {
    var window, fatal := Window(history, capacity), FirstFatal(history);
    if max <= |window| then window[..max]
    else if fatal != 0 && fatal < FirstKept(history, capacity) then [Stamped(history, fatal)] + window
    else window
  }

  // ---- Sorting ----

  /** Insertion from the right, after every event that is not later. */
  function Insert(s: seq<Event>, v: Event): (r: seq<Event>)
    ensures |r| == |s| + 1
  {
    if s == [] || s[|s| - 1].sequence <= v.sequence then s + [v]
    else Insert(s[..|s| - 1], v) + [s[|s| - 1]]
  }

  function Sort(s: seq<Event>): (r: seq<Event>)
    ensures |r| == |s|
  {
    if s == [] then [] else Insert(Sort(s[..|s| - 1]), s[|s| - 1])
  }

  predicate Ascending(s: seq<Event>) {
    forall i, j :: 0 <= i < j < |s| ==> s[i].sequence <= s[j].sequence
  }

  /** Inserting loses and invents nothing. */
  lemma {:induction false} InsertKeeps(s: seq<Event>, v: Event)
    ensures multiset(Insert(s, v)) == multiset(s) + multiset{v}
    ensures forall e :: e in Insert(s, v) ==> e in s || e == v
  {
    if s != [] && s[|s| - 1].sequence > v.sequence {
      var rest, last := s[..|s| - 1], s[|s| - 1];
      InsertKeeps(rest, v);
      assert s == rest + [last];
    }
  }

  lemma {:induction false} InsertAscends(s: seq<Event>, v: Event)
    requires Ascending(s)
    ensures Ascending(Insert(s, v))
  {
    if s != [] && s[|s| - 1].sequence > v.sequence {
      var rest, last := s[..|s| - 1], s[|s| - 1];
      InsertAscends(rest, v);
      InsertKeeps(rest, v);
      forall i | 0 <= i < |s|
        ensures Insert(rest, v)[i].sequence <= last.sequence
      {
        assert Insert(rest, v)[i] in Insert(rest, v);
      }
    }
  }

  /** Sorting sorts, and loses or invents nothing. */
  lemma {:induction false} SortIsSorting(s: seq<Event>)
    ensures Ascending(Sort(s)) && multiset(Sort(s)) == multiset(s)
  {
    if s != [] {
      SortIsSorting(s[..|s| - 1]);
      InsertAscends(Sort(s[..|s| - 1]), s[|s| - 1]);
      InsertKeeps(Sort(s[..|s| - 1]), s[|s| - 1]);
      assert s == s[..|s| - 1] + [s[|s| - 1]];
    }
  }

  lemma {:induction false} SortOfSorted(s: seq<Event>)
    requires Ascending(s)
    ensures Sort(s) == s
  {
    if s != [] {
      SortOfSorted(s[..|s| - 1]);
      assert s == s[..|s| - 1] + [s[|s| - 1]];
    }
  }

  lemma {:induction false} InsertFirst(s: seq<Event>, v: Event)
    requires forall e :: e in s ==> e.sequence > v.sequence
    ensures Insert(s, v) == [v] + s
  {
    if s != [] {
      assert s[|s| - 1] in s;
      InsertFirst(s[..|s| - 1], v);
      assert s == s[..|s| - 1] + [s[|s| - 1]];
    }
  }

  /** The insertion sort of the copy, in place. */
  method SortInPlace(out: array<Event>, n: nat)
    requires n <= out.Length
    modifies out
    ensures out[..n] == Sort(old(out[..n])) && out[n..] == old(out[n..])
  {
    if n == 0 { return; }
    ghost var was := out[..];
    var i := 1;
    assert was[..1] == [was[0]] && was[..1][..0] == [];
    while i < n
      invariant 1 <= i <= n && out[..i] == Sort(was[..i])
      invariant forall k :: i <= k < out.Length ==> out[k] == was[k]
    {
      assert was[..i + 1][..i] == was[..i];
      InsertAt(out, i);
      i := i + 1;
    }
  }

  /** Where the inserted event goes. */
  lemma {:induction false} InsertPlace(s: seq<Event>, j: nat, v: Event)
    requires j <= |s| && (j == 0 || s[j - 1].sequence <= v.sequence)
    requires forall k :: j <= k < |s| ==> s[k].sequence > v.sequence
    ensures Insert(s, v) == s[..j] + [v] + s[j..]
    decreases |s|
  {
    if j < |s| {
      var rest := s[..|s| - 1];
      InsertPlace(rest, j, v);
      assert rest[..j] == s[..j] && rest[j..] + [s[|s| - 1]] == s[j..];
    } else {
      assert s[..j] == s && s[j..] == [];
    }
  }

  /** Makes room for `value` among the first `i` elements: those that are later move up by one. */
  method MakeRoom(out: array<Event>, i: nat, value: Event) returns (j: nat)
    requires i < out.Length
    modifies out
    ensures j <= i && (j == 0 || old(out[..i])[j - 1].sequence <= value.sequence)
    ensures forall k :: j <= k < i ==> old(out[..i])[k].sequence > value.sequence
    ensures forall k :: 0 <= k < j ==> out[k] == old(out[..i])[k]
    ensures forall k :: j < k <= i ==> out[k] == old(out[..i])[k - 1]
    ensures forall k :: i < k < out.Length ==> out[k] == old(out[k])
  {
    ghost var before := out[..i];
    j := i;
    while j > 0 && out[j - 1].sequence > value.sequence
      invariant j <= i && forall k :: j <= k < i ==> before[k].sequence > value.sequence
      invariant forall k :: 0 <= k < j ==> out[k] == before[k]
      invariant forall k :: j < k <= i ==> out[k] == before[k - 1]
      invariant forall k :: i < k < out.Length ==> out[k] == old(out[k])
    {
      out[j] := out[j - 1];
      j := j - 1;
    }
  }

  /** Moves element `i` down to its place among the elements before it. */
  method InsertAt(out: array<Event>, i: nat)
    requires i < out.Length
    modifies out
    ensures out[..i + 1] == Insert(old(out[..i]), old(out[i]))
    ensures forall k :: i < k < out.Length ==> out[k] == old(out[k])
  {
    var value := out[i];
    var j := MakeRoom(out, i, value);
    out[j] := value;
    InsertPlace(old(out[..i]), j, value);
  }

  // ---- The ring ----

  class Ring {
    const records: array<Event>
    var next: nat
    var overwrites: nat
    var fatalSequence: nat
    var fatal: Event
    ghost var history: seq<Push>

    ghost predicate Valid()
      reads this, records
    {
      && records.Length > 0 && next == |history|
      && overwrites == (if |history| > records.Length then |history| - records.Length else 0)
      && Kept(records[..], history)
      && fatalSequence == FirstFatal(history)
      && (fatalSequence != 0 ==> fatal == Stamped(history, fatalSequence))
    }

    constructor (capacity: nat)
      requires capacity > 0
      ensures Valid() && fresh(records) && records.Length == capacity && history == []
    {
      records := new Event[capacity](_ => NO_EVENT);
      next, overwrites, fatalSequence, fatal := 0, 0, 0, NO_EVENT;
      history := [];
    }

    /** `storage_event_ring_push`. */
    method Record(event: Event, isFatal: bool)
      requires Valid()
      modifies this, records
      ensures Valid() && history == old(history) + [Push(event, isFatal)]
    {
      next := next + 1;
      if next > records.Length { overwrites := overwrites + 1; }
      var stamped := event.(sequence := next);
      KeptAfter(records[..], history, Push(event, isFatal));
      records[next % records.Length] := stamped;
      history := history + [Push(event, isFatal)];
      assert history[..|history| - 1] == old(history);
      if isFatal && fatalSequence == 0 {
        fatal := stamped;
        fatalSequence := next;
      }
    }

    /** The copy of the window, oldest first, as far as there is room. */
    method CopyWindow(out: array<Event>, max: nat) returns (n: nat)
      requires Valid() && out != records && max <= out.Length
      modifies out
      ensures n == (if max <= |Window(history, records.Length)| then max else |Window(history, records.Length)|)
      ensures out[..n] == Window(history, records.Length)[..n]
    {
      var first := if next > records.Length then next - records.Length + 1 else 1;
      ghost var window := Window(history, records.Length);
      var sequence := first;
      n := 0;
      while sequence <= next && n < max
        invariant first <= sequence <= next + 1 && n == sequence - first <= max
        invariant forall k :: 0 <= k < n ==> out[k] == window[k]
      {
        var r := records[sequence % records.Length];
        assert r == Stamped(history, sequence);
        if r.sequence == sequence {
          out[n] := r;
          n := n + 1;
        }
        sequence := sequence + 1;
      }
    }

    method Present(out: array<Event>, n: nat) returns (present: bool)
      requires n <= out.Length
      ensures present <==> exists k :: 0 <= k < n && out[..n][k].sequence == fatal.sequence
    {
      present := false;
      var i := 0;
      while i < n
        invariant i <= n && (present <==> exists k :: 0 <= k < i && out[..n][k].sequence == fatal.sequence)
      {
        assert out[..n][i] == out[i];
        if out[i].sequence == fatal.sequence { present := true; }
        i := i + 1;
      }
    }

    /** The fatal event joins at the end when it is not there and there is room. */
    method AddFatal(out: array<Event>, n0: nat, max: nat) returns (n: nat)
      requires Valid() && out != records && max <= out.Length
      requires n0 == (if max <= |Window(history, records.Length)| then max else |Window(history, records.Length)|)
      requires out[..n0] == Window(history, records.Length)[..n0]
      modifies out
      ensures n <= max && out[..n] == Gathered(history, records.Length, max)
    {
      n := n0;
      ghost var window := Window(history, records.Length);
      assert window[..|window|] == window;
      if fatalSequence != 0 && n < max {
        var present := Present(out, n);
        FatalPresent(history, records.Length);
        if !present {
          out[n] := fatal;
          n := n + 1;
        }
      }
    }

    /** `storage_event_ring_copy`. */
    method Copy(out: array<Event>, max: nat) returns (n: nat)
      requires Valid() && out != records && max <= out.Length
      modifies out
      ensures n <= max && out[..n] == Expected(history, records.Length, max)
    {
      n := CopyWindow(out, max);
      n := AddFatal(out, n, max);
      SortedCopy(history, records.Length, max);
      SortInPlace(out, n);
    }
  }

  /** The slots of the window hold its events. */
  predicate Kept(records: seq<Event>, history: seq<Push>) {
    |records| > 0 &&
    forall k :: FirstKept(history, |records|) <= k <= |history| ==> records[k % |records|] == Stamped(history, k)
  }

  lemma KeptAfter(records: seq<Event>, history: seq<Push>, p: Push)
    requires Kept(records, history)
    ensures var n := |history| + 1;
            Kept(records[n % |records| := p.event.(sequence := n)], history + [p])
  {
    var n, more := |history| + 1, history + [p];
    forall k | FirstKept(more, |records|) <= k < n
      ensures k % |records| != n % |records| && Stamped(more, k) == Stamped(history, k)
    {
      ModDistinct(k, n, |records|);
    }
  }

  /** The first fatal event is in the window unless it was overwritten. */
  lemma FatalPresent(history: seq<Push>, capacity: nat)
    requires capacity > 0 && FirstFatal(history) != 0
    ensures var window, fatal := Window(history, capacity), FirstFatal(history);
            (exists k :: 0 <= k < |window| && window[k].sequence == fatal) <==> fatal >= FirstKept(history, capacity)
  {
    var window, fatal, first := Window(history, capacity), FirstFatal(history), FirstKept(history, capacity);
    if fatal >= first { assert window[fatal - first].sequence == fatal; }
  }

  /** What a copy holds before it is sorted. */
  function Gathered(history: seq<Push>, capacity: nat, max: nat): seq<Event>
    requires capacity > 0
  {
    var window, fatal := Window(history, capacity), FirstFatal(history);
    if max <= |window| then window[..max]
    else if fatal != 0 && fatal < FirstKept(history, capacity) then window + [Stamped(history, fatal)]
    else window
  }

  /** Sorting it puts an overwritten fatal event first. */
  lemma SortedCopy(history: seq<Push>, capacity: nat, max: nat)
    requires capacity > 0
    ensures Sort(Gathered(history, capacity, max)) == Expected(history, capacity, max)
  {
    var window, fatal := Window(history, capacity), FirstFatal(history);
    SortOfSorted(window);
    if max <= |window| {
      SortOfSorted(window[..max]);
    } else if fatal != 0 && fatal < FirstKept(history, capacity) {
      var e := Stamped(history, fatal);
      assert (window + [e])[..|window|] == window;
      InsertFirst(window, e);
    }
  }

  lemma ExpectedAscends(history: seq<Push>, capacity: nat, max: nat)
    requires capacity > 0
    ensures Ascending(Expected(history, capacity, max))
  {
    SortedCopy(history, capacity, max);
    SortIsSorting(Gathered(history, capacity, max));
  }

  lemma WindowIsRecent(history: seq<Push>, capacity: nat)
    requires capacity > 0
    ensures var window := Window(history, capacity);
            && |window| == (if |history| <= capacity then |history| else capacity)
            && (forall k :: 0 <= k < |window| ==> window[k] == Stamped(history, |history| - |window| + 1 + k))
  {
  }

  lemma FatalKept(history: seq<Push>, capacity: nat)
    requires capacity > 0 && FirstFatal(history) >= FirstKept(history, capacity)
    ensures Stamped(history, FirstFatal(history)) in Window(history, capacity)
  {
    var window, k := Window(history, capacity), FirstFatal(history) - FirstKept(history, capacity);
    assert window[k] == Stamped(history, FirstFatal(history));
  }

  /** With room for all, a copy is exactly the last min(n, capacity) events, preceded by the first fatal
      one if it is not among them; so the first fatal event is always there. */
  lemma CopyIsHistory(history: seq<Push>, capacity: nat, max: nat)
    requires capacity > 0 && max >= capacity + 1
    ensures var e, window, fatal := Expected(history, capacity, max), Window(history, capacity), FirstFatal(history);
            && |window| == (if |history| <= capacity then |history| else capacity)
            && e == (if fatal != 0 && fatal + |window| <= |history| then [Stamped(history, fatal)] + window else window)
            && (fatal != 0 ==> Stamped(history, fatal) in e)
  {
    WindowIsRecent(history, capacity);
    if FirstFatal(history) >= FirstKept(history, capacity) { FatalKept(history, capacity); }
  }
}

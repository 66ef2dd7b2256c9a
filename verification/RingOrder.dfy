/** The descriptor ring from start to stop latch when descriptors are given back in the order in which they
    were harvested, as the one-slot-at-a-time writer does. The producer keeps back a descriptor whose bytes
    do not fill sectors: it is released and never given back. The ring stays in order exactly as long as
    nothing behind a released descriptor was given back. */
module RingOrder {
  import opened Modular
  import opened DmaRing

  /** The hardware in tail pointer mode (PG021): it works from descriptor `cur` up to TAILDESC, sleeps
      there and goes on when TAILDESC is written. `owned` are the descriptors given to it and not yet
      harvested, `fills` the lengths it has received, `log` what was harvested; `gone` are the entries of
      `log` that were released, `back` is the position behind the last one given back and `given` their
      number. */
  datatype Line = Line(ring: Ring, cur: nat, idle: bool, owned: set<nat>, fills: seq<nat>,
                       log: seq<HarvestItem>, gone: set<nat>, back: nat, given: nat)

  datatype Move = Fill(length: nat) | Harvest | Release(k: nat) | GiveBack

  /** The descriptors of the circle from `next` on, `count` of them. */
  ghost function CircularInterval(next: nat, count: nat, n: nat): set<nat>
    requires n > 0
  {
    set d: nat | d < count :: Along(next, d, n)
  }

  ghost function FirstLine(n: nat): Line
    requires n > 0
  {
    Line(Started(n), 0, false, CircularInterval(0, n, n), [], [], {}, 0, 0)
  }

  ghost predicate Init(s: Line) {
    exists n: nat :: n > 0 && s == FirstLine(n)
  }

  /** The first entry from `i` on that was not released; `n` when there is none. */
  function FirstKept(gone: set<nat>, i: nat, n: nat): (j: nat)
    requires i <= n
    ensures i <= j <= n && (j < n ==> j !in gone) && forall k :: i <= k < j ==> k in gone
    decreases n - i
  {
    if i == n || i !in gone then i else FirstKept(gone, i + 1, n)
  }

  /** The entry given back next. */
  function NextBack(s: Line): nat
    requires s.back <= |s.log|
  {
    FirstKept(s.gone, s.back, |s.log|)
  }

  /** The hardware transfers only into a descriptor whose Completed bit is clear. */
  predicate Enabled(s: Line, m: Move) {
    RingOk(s.ring) && s.back <= |s.log| &&
    match m
    case Fill(_) => !s.idle && s.cur < |s.ring.status| && !s.ring.status[s.cur].completed
    case Harvest => HarvestOne(s.ring, false, false).Got?
    case Release(k) => s.back <= k < |s.log| && k !in s.gone
    case GiveBack => NextBack(s) < |s.log|
  }

  function Apply(s: Line, m: Move): Line
    requires Enabled(s, m)
  {
    match m
    case Fill(length) =>
      s.(ring := s.ring.(status := s.ring.status[s.cur := Status(true, false, length)]),
         cur := (s.cur + 1) % |s.ring.status|, idle := s.cur == s.ring.tail, fills := s.fills + [length])
    case Harvest =>
      var h := HarvestOne(s.ring, false, false);
      s.(ring := h.ring, owned := s.owned - {h.item.slot}, log := s.log + [h.item])
    case Release(k) => s.(gone := s.gone + {k})
    case GiveBack =>
      var slot := s.log[NextBack(s)].slot;
      s.(ring := RequeueOne(s.ring, slot, false).ring, idle := false, owned := s.owned + {slot},
         back := NextBack(s) + 1, given := s.given + 1)
  }

  ghost predicate Reaches(s: Line, moves: seq<Move>, t: Line)
    decreases moves
  {
    if moves == [] then t == s
    else Enabled(s, moves[0]) && Reaches(Apply(s, moves[0]), moves[1..], t)
  }

  ghost predicate Reachable(t: Line) {
    exists s, moves :: Init(s) && Reaches(s, moves, t)
  }

  /** Nothing behind a released descriptor was given back. */
  predicate InOrder(s: Line) {
    forall k :: k in s.gone ==> s.back <= k
  }

  // ---- The invariant ----

  function Place(s: Line, j: nat): (i: nat)
    requires |s.ring.status| > 0
    ensures i < |s.ring.status|
  {
    j % |s.ring.status|
  }

  /** Released entries below `b`. */
  function CountGone(gone: set<nat>, b: nat): (c: nat)
    ensures c <= b && (c == 0 <==> forall k :: 0 <= k < b ==> k !in gone)
  {
    if b == 0 then 0 else CountGone(gone, b - 1) + (if b - 1 in gone then 1 else 0)
  }

  /** What holds in every run. */
  predicate Counted(s: Line) {
    var n := |s.ring.status|;
    && n > 0 && s.given + CountGone(s.gone, s.back) == s.back <= |s.log| <= s.given + n
    && (s.back > 0 ==> s.back - 1 !in s.gone) && (forall k :: k in s.gone ==> k < |s.log|)
    && s.ring.next == Place(s, |s.log|) && s.ring.hwCount == s.given + n - |s.log| && s.ring.tail < n
    && s.ring.sequence == |s.log| && !s.ring.stopLatched && s.ring.requeueEnabled
    && forall k :: 0 <= k < |s.log| ==> s.log[k].slot == Place(s, k) && s.log[k].sequence == k
  }

  /** The descriptor that would be harvested as number `p` is the hardware's: it is one of the first turn,
      or the last time round it was given back. */
  predicate GivenFor(s: Line, p: nat) {
    var n := |s.ring.status|;
    p < n || (p - n < s.back && p - n !in s.gone)
  }

  ghost predicate OwnedOk(s: Line)
    requires |s.ring.status| > 0
  {
    && (forall p :: |s.log| <= p < |s.log| + |s.ring.status| ==> (Place(s, p) in s.owned <==> GivenFor(s, p)))
    && (forall i :: i in s.owned ==> i < |s.ring.status|)
  }

  /** In order, everything is determined by how often descriptors were filled, harvested and given back. */
  predicate Positions(s: Line) {
    var n := |s.ring.status|;
    && n > 0 && s.back <= |s.log| <= |s.fills| <= s.back + n
    && s.ring.tail == Place(s, s.back + n - 1) && s.cur == Place(s, |s.fills|) && (s.idle <==> |s.fills| == s.back + n)
    && forall k :: 0 <= k < |s.log| ==> s.log[k].bytes == s.fills[k]
  }

  predicate StatusOk(s: Line)
    requires |s.ring.status| > 0
  {
    && (forall j :: s.back <= j < |s.fills| ==> s.ring.status[Place(s, j)] == Status(true, false, s.fills[j]))
    && (forall j :: |s.fills| <= j < s.back + |s.ring.status| ==> !s.ring.status[Place(s, j)].completed)
  }

  ghost predicate Inv(s: Line) {
    Counted(s) && OwnedOk(s) && (InOrder(s) ==> Positions(s) && StatusOk(s))
  }

  lemma FirstOwned(n: nat, p: nat)
    requires p < n
    ensures Place(FirstLine(n), p) == p && p in FirstLine(n).owned
  {
    ModSmall(p, n);
    assert Along(0, p, n) == p;
  }

  lemma FirstInv(n: nat)
    requires n > 0
    ensures Inv(FirstLine(n))
  {
    var s := FirstLine(n);
    forall p: nat | p < n { FirstOwned(n, p); }
  }

  lemma InitInv(s: Line)
    requires Init(s)
    ensures Inv(s)
  {
    var n: nat :| n > 0 && s == FirstLine(n);
    FirstInv(n);
  }

  /** Places less than a turn apart differ. */
  lemma Elsewhere(s: Line, low: nat, f: nat)
    requires |s.ring.status| > 0 && low <= f < low + |s.ring.status|
    ensures forall j :: low <= j < low + |s.ring.status| && j != f ==> Place(s, j) != Place(s, f)
  {
    forall j | low <= j < low + |s.ring.status| && j != f
      ensures Place(s, j) != Place(s, f)
    {
      if j < f { ModDistinct(j, f, |s.ring.status|); } else { ModDistinct(f, j, |s.ring.status|); }
    }
  }

  lemma SamePlaces(s: Line, t: Line)
    requires |s.ring.status| == |t.ring.status| > 0
    ensures forall j: nat :: Place(t, j) == Place(s, j)
  {
  }

  lemma FillKeeps(s: Line, length: nat)
    requires Inv(s) && Enabled(s, Fill(length))
    ensures Inv(Apply(s, Fill(length)))
  {
    var t := Apply(s, Fill(length));
    SamePlaces(s, t);
    if InOrder(s) {
      var n, f := |s.ring.status|, |s.fills|;
      ModNext(f, n);
      if f < s.back + n - 1 { ModDistinct(f, s.back + n - 1, n); }
      Elsewhere(s, s.back, f);
    }
  }

  /** A turn later it is the same place. */
  lemma TurnLater(s: Line, j: nat)
    requires |s.ring.status| > 0
    ensures Place(s, j + |s.ring.status|) == Place(s, j)
  {
    DivStep(j, |s.ring.status|);
  }

  lemma HarvestKeepsOwned(s: Line)
    requires Counted(s) && OwnedOk(s) && Enabled(s, Harvest)
    ensures OwnedOk(Apply(s, Harvest))
  {
    var t, h, n := Apply(s, Harvest), |s.log|, |s.ring.status|;
    SamePlaces(s, t);
    TurnLater(s, h);
    Elsewhere(s, h, h);
    forall p | h + 1 <= p < h + 1 + n
      ensures Place(t, p) in t.owned <==> GivenFor(t, p)
    {
      if p < h + n { assert GivenFor(t, p) <==> GivenFor(s, p); }
    }
  }

  lemma HarvestKeepsOrder(s: Line)
    requires Counted(s) && Positions(s) && StatusOk(s) && InOrder(s) && Enabled(s, Harvest)
    ensures |s.log| < |s.fills| && Positions(Apply(s, Harvest)) && StatusOk(Apply(s, Harvest))
  {
    var h := |s.log|;
    SamePlaces(s, Apply(s, Harvest));
    assert CountGone(s.gone, s.back) == 0;
    assert Place(s, h) == s.ring.next;
  }

  lemma HarvestKeeps(s: Line)
    requires Inv(s) && Enabled(s, Harvest)
    ensures Inv(Apply(s, Harvest))
    ensures InOrder(s) ==> |s.log| < |s.fills|
  {
    ModNext(|s.log|, |s.ring.status|);
    SamePlaces(s, Apply(s, Harvest));
    HarvestKeepsOwned(s);
    assert InOrder(Apply(s, Harvest)) <==> InOrder(s);
    if InOrder(s) { HarvestKeepsOrder(s); }
  }

  lemma {:induction false} CountGoneSpan(gone: set<nat>, a: nat, b: nat)
    requires a <= b && forall k :: a <= k < b ==> k in gone
    ensures CountGone(gone, b) == CountGone(gone, a) + (b - a)
    decreases b
  {
    if a < b { CountGoneSpan(gone, a, b - 1); }
  }

  lemma {:induction false} CountGoneAdded(gone: set<nat>, k: nat, b: nat)
    requires b <= k
    ensures CountGone(gone + {k}, b) == CountGone(gone, b)
    decreases b
  {
    if b != 0 { CountGoneAdded(gone, k, b - 1); }
  }

  /** What is given back is not the hardware's yet, and there is room for it. */
  lemma BackIsFree(s: Line)
    requires Counted(s) && OwnedOk(s) && Enabled(s, GiveBack)
    ensures var j := NextBack(s);
            && |s.log| <= j + |s.ring.status| < |s.log| + |s.ring.status| && Place(s, j + |s.ring.status|) == Place(s, j)
            && Place(s, j) !in s.owned && s.given < |s.log| && RequeueOne(s.ring, s.log[j].slot, false).rc == 0
  {
    var j := NextBack(s);
    TurnLater(s, j);
    assert !GivenFor(s, j + |s.ring.status|);
  }

  lemma GiveBackKeepsOwned(s: Line)
    requires Counted(s) && OwnedOk(s) && Enabled(s, GiveBack)
    ensures OwnedOk(Apply(s, GiveBack))
  {
    var t, j, h, n := Apply(s, GiveBack), NextBack(s), |s.log|, |s.ring.status|;
    BackIsFree(s);
    SamePlaces(s, t);
    Elsewhere(s, h, j + n);
    forall p | h <= p < h + n
      ensures Place(t, p) in t.owned <==> GivenFor(t, p)
    {
      if p != j + n { assert GivenFor(t, p) <==> GivenFor(s, p); }
    }
  }

  lemma GiveBackKeepsCounted(s: Line)
    requires Counted(s) && OwnedOk(s) && Enabled(s, GiveBack)
    ensures Counted(Apply(s, GiveBack))
  {
    BackIsFree(s);
    CountGoneSpan(s.gone, s.back, NextBack(s));
    SamePlaces(s, Apply(s, GiveBack));
  }

  lemma GiveBackKeeps(s: Line)
    requires Inv(s) && Enabled(s, GiveBack)
    ensures Inv(Apply(s, GiveBack))
  {
    var t, r, n := Apply(s, GiveBack), s.back, |s.ring.status|;
    GiveBackKeepsCounted(s);
    GiveBackKeepsOwned(s);
    if InOrder(t) {
      assert r !in s.gone;
      assert NextBack(s) == r && InOrder(s);
      SamePlaces(s, t);
      TurnLater(s, r);
      Elsewhere(s, r, r);
      assert (r + 1) + n - 1 == r + n;
    }
  }

  lemma ReleaseKeeps(s: Line, k: nat)
    requires Inv(s) && Enabled(s, Release(k))
    ensures Inv(Apply(s, Release(k)))
  {
    var t := Apply(s, Release(k));
    CountGoneAdded(s.gone, k, s.back);
    SamePlaces(s, t);
    assert forall p: nat :: GivenFor(t, p) <==> GivenFor(s, p);
    if InOrder(t) {
      forall x | x in s.gone ensures s.back <= x { assert x in t.gone; }
    }
  }

  lemma StepKeeps(s: Line, m: Move)
    requires Inv(s) && Enabled(s, m)
    ensures Inv(Apply(s, m))
  {
    match m
    case Fill(length) => FillKeeps(s, length);
    case Harvest => HarvestKeeps(s);
    case Release(k) => ReleaseKeeps(s, k);
    case GiveBack => GiveBackKeeps(s);
  }

  lemma {:induction false} RunKeeps(s: Line, moves: seq<Move>, t: Line)
    requires Inv(s) && Reaches(s, moves, t)
    ensures Inv(t)
    decreases moves
  {
    if moves != [] {
      StepKeeps(s, moves[0]);
      RunKeeps(Apply(s, moves[0]), moves[1..], t);
    }
  }

  lemma ReachableInv(t: Line)
    requires Reachable(t)
    ensures Inv(t)
  {
    var s, moves :| Init(s) && Reaches(s, moves, t);
    InitInv(s);
    RunKeeps(s, moves, t);
  }

  // ---- What it means ----

  /** The hardware's descriptors are exactly the circular interval that starts at the next one to harvest and
      has the counted length, if and only if nothing behind a released descriptor was given back; then the
      interval ends at TAILDESC. */
  lemma OwnedIsInterval(t: Line)
    requires Reachable(t)
    ensures RingOk(t.ring)
    ensures t.owned == CircularInterval(t.ring.next, t.ring.hwCount, |t.ring.status|) <==> InOrder(t)
    ensures InOrder(t) && t.ring.hwCount > 0 ==> t.ring.tail == Along(t.ring.next, t.ring.hwCount - 1, |t.ring.status|)
  {
    ReachableInv(t);
    var n, h := |t.ring.status|, |t.log|;
    if InOrder(t) {
      if t.ring.hwCount > 0 { ModPlus(h, t.ring.hwCount - 1, n); }
      InOrderIsInterval(t);
    } else {
      LastBackIsOutside(t);
    }
  }

  /** Which descriptors make up the interval. */
  lemma InInterval(t: Line, p: nat)
    requires Counted(t) && |t.log| <= p < |t.log| + |t.ring.status|
    ensures Place(t, p) in CircularInterval(t.ring.next, t.ring.hwCount, |t.ring.status|) <==> p < t.given + |t.ring.status|
  {
    var n, h := |t.ring.status|, |t.log|;
    ModPlus(h, p - h, n);
    if p < t.given + n {
      assert Place(t, p) == Along(t.ring.next, p - h, n);
    } else if Place(t, p) in CircularInterval(t.ring.next, t.ring.hwCount, n) {
      var d: nat :| d < t.ring.hwCount && Along(t.ring.next, d, n) == Place(t, p);
      ModPlus(h, d, n);
      ModDistinct(h + d, p, n);
    }
  }

  lemma InOrderIsInterval(t: Line)
    requires Inv(t) && InOrder(t)
    ensures t.owned == CircularInterval(t.ring.next, t.ring.hwCount, |t.ring.status|)
  {
    var n, h := |t.ring.status|, |t.log|;
    var interval := CircularInterval(t.ring.next, t.ring.hwCount, n);
    assert CountGone(t.gone, t.back) == 0;
    forall i: nat | i < n
      ensures i in t.owned <==> i in interval
    {
      var p := ModReach(h, i, n);
      assert Place(t, p) == i;
      InInterval(t, p);
    }
    forall i | i in interval
      ensures i < n
    {
      var d: nat :| d < t.ring.hwCount && Along(t.ring.next, d, n) == i;
    }
  }

  /** Out of order, the last descriptor given back is the hardware's and lies outside. */
  lemma LastBackIsOutside(t: Line)
    requires Inv(t) && !InOrder(t)
    ensures t.owned != CircularInterval(t.ring.next, t.ring.hwCount, |t.ring.status|)
  {
    var p := t.back - 1 + |t.ring.status|;
    assert CountGone(t.gone, t.back) != 0;
    assert GivenFor(t, p);
    InInterval(t, p);
  }

  /** A harvest takes a descriptor that is not the hardware's, so one that was harvested already and not given
      back since, if and only if that one was released a turn ago. */
  lemma HarvestedAgainIfReleased(t: Line)
    requires Reachable(t) && Enabled(t, Harvest)
    ensures t.ring.next !in t.owned <==> |t.log| >= |t.ring.status| && |t.log| - |t.ring.status| in t.gone
  {
    ReachableInv(t);
    assert t.ring.next == Place(t, |t.log|);
    assert t.ring.next in t.owned <==> GivenFor(t, |t.log|);
  }

  /** In order, the hardware stands only at a descriptor it owns and whose previous content was harvested: no
      completed descriptor is ever fetched. */
  lemma HardwareStaysInside(t: Line)
    requires Reachable(t) && InOrder(t) && !t.idle
    ensures t.cur in t.owned && t.cur < |t.ring.status| && !t.ring.status[t.cur].completed
  {
    ReachableInv(t);
    assert CountGone(t.gone, t.back) == 0;
    var n, f, h := |t.ring.status|, |t.fills|, |t.log|;
    assert Place(t, f) == t.cur;
    assert GivenFor(t, f);
  }

  /** In order, a harvest takes the oldest descriptor completed and not yet harvested. */
  lemma HarvestTakesOldest(t: Line)
    requires Reachable(t) && InOrder(t) && Enabled(t, Harvest)
    ensures t.ring.next in t.owned && t.ring.next !in Apply(t, Harvest).owned
    ensures |t.log| < |t.fills|
    ensures HarvestOne(t.ring, false, false).item == HarvestItem(t.ring.next, t.fills[|t.log|], |t.log|)
  {
    ReachableInv(t);
    HarvestKeeps(t);
    HarvestedAgainIfReleased(t);
    assert CountGone(t.gone, t.back) == 0;
    assert Place(t, |t.log|) == t.ring.next;
  }

  /** Harvest order is ring order and sequence numbers count up from 0, in every run; in order, it is the order
      of completion. */
  lemma HarvestOrderIsCompletionOrder(t: Line, k: nat)
    requires Reachable(t) && k < |t.log|
    ensures |t.ring.status| > 0 && t.log[k].slot == k % |t.ring.status| && t.log[k].sequence == k
    ensures InOrder(t) ==> |t.log| <= |t.fills| && t.log[k].bytes == t.fills[k]
  {
    ReachableInv(t);
  }

  /** In order, the harvester finds something exactly when a completed descriptor is not yet harvested. */
  lemma CompletedIsHarvested(t: Line)
    requires Reachable(t) && InOrder(t)
    ensures RingOk(t.ring)
    ensures |t.log| < |t.fills| <==> HarvestOne(t.ring, false, false).Got?
  {
    ReachableInv(t);
    assert CountGone(t.gone, t.back) == 0;
    var h := |t.log|;
    assert Place(t, h) == t.ring.next;
    if h < |t.fills| {
      assert t.ring.status[Place(t, h)] == Status(true, false, t.fills[h]);
    } else if h < t.back + |t.ring.status| {
      assert !t.ring.status[Place(t, h)].completed;
    }
  }

  /** The ownership-overflow branch is dead in every run: giving a harvested descriptor back succeeds. */
  lemma OverflowIsDead(t: Line)
    requires Reachable(t) && Enabled(t, GiveBack)
    ensures var slot := t.log[NextBack(t)].slot;
            && slot !in t.owned && RequeueOne(t.ring, slot, false).rc == 0
            && Apply(t, GiveBack).ring.hwCount == t.ring.hwCount + 1 <= |t.ring.status|
  {
    ReachableInv(t);
    BackIsFree(t);
  }

  // ---- A run out of order ----

  lemma {:induction false} ReachesMore(s: Line, moves: seq<Move>, t: Line, m: Move)
    requires Reaches(s, moves, t) && Enabled(t, m)
    ensures Reaches(s, moves + [m], Apply(t, m))
    decreases moves
  {
    if moves == [] {
      assert [m][1..] == [];
    } else {
      assert (moves + [m])[1..] == moves[1..] + [m];
      ReachesMore(Apply(s, moves[0]), moves[1..], t, m);
    }
  }

  lemma Go(t: Line, m: Move) returns (u: Line)
    requires Reachable(t) && Enabled(t, m)
    ensures Reachable(u) && u == Apply(t, m)
  {
    var s, moves :| Init(s) && Reaches(s, moves, t);
    ReachesMore(s, moves, t, m);
    u := Apply(t, m);
  }

  const FULL := Status(true, false, 100)

  /** A ring of two, both descriptors filled and harvested. */
  lemma BothHarvested() returns (t: Line)
    ensures Reachable(t) && t.ring == Ring([FULL, FULL], 0, 0, 2, 1, false, true, 0)
    ensures t.log == [HarvestItem(0, 100, 0), HarvestItem(1, 100, 1)] && t.gone == {} && t.back == t.given == 0
  {
    t := FirstLine(2);
    assert Init(t) && Reaches(t, [], t);
    assert t.ring.status == [CLEARED, CLEARED];
    t := Go(t, Fill(100));
    t := Go(t, Fill(100));
    assert t.ring.status == [FULL, FULL];
    t := Go(t, Harvest);
    t := Go(t, Harvest);
  }

  /** Such a run exists: the first descriptor is released, the second given back, and the first is harvested
      again. */
  lemma ReleasedIsHarvestedAgain() returns (t: Line)
    ensures Reachable(t) && !InOrder(t) && Enabled(t, Harvest) && t.ring.next !in t.owned
    ensures HarvestOne(t.ring, false, false).item.slot == t.log[0].slot
  {
    t := BothHarvested();
    t := Go(t, Release(0));
    assert NextBack(t) == 1;
    t := Go(t, GiveBack);
    assert t.ring.status == [FULL, CLEARED];
    assert 0 in t.gone;
    HarvestedAgainIfReleased(t);
  }
}

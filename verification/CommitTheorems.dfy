/** The commit is atomic and runs once, for every pattern of failing operations. */
module CommitTheorems {
  import opened Metadata
  import opened Commit

  // ---- What may be left ----

  predicate DistinctChannels(items: seq<Item>) {
    forall i, j :: 0 <= i < j < |items| ==> items[i].channel != items[j].channel
  }

  function RecordsOf(items: seq<Item>): (r: seq<Record>)
    ensures |r| == |items| && forall i :: 0 <= i < |items| ==> r[i] == items[i].record
  {
    seq(|items|, i requires 0 <= i < |items| => items[i].record)
  }

  predicate OfItems(items: seq<Item>, n: nat, c: nat)
    requires n <= |items|
  {
    exists j :: 0 <= j < n && items[j].channel == c
  }

  /** The tables with the entries of `items[..n]` added, each in its own slot, and nothing else changed. */
  predicate TablesHold(before: seq<FileTable>, after: seq<FileTable>, items: seq<Item>, n: nat)
    requires n <= |items|
  {
    && |before| == |after| == CHANNELS
    && (forall j :: 0 <= j < n ==>
          && items[j].channel < CHANNELS && items[j].slot < MAX_FILES && !before[items[j].channel][items[j].slot].valid
          && after[items[j].channel] == before[items[j].channel][items[j].slot := items[j].metadata])
    && (forall c :: 0 <= c < CHANNELS && !OfItems(items, n, c) ==> after[c] == before[c])
  }

  /** Everything as it was, but for the task's status. */
  predicate Untouched(w0: World, w: World) {
    !w.open && w.committed.records == w0.committed.records && w.committed.totals == w0.committed.totals && w.tables == w0.tables
  }

  /** Everything written: records, totals, status and metadata of every item, none of which existed before. */
  predicate Stored(w0: World, w: World, task: string, items: seq<Item>) {
    && !w.open && w.committed.records == w0.committed.records + RecordsOf(items)
    && w.committed.totals == w0.committed.totals[task := CountFor(w.committed.records, task)]
    && w.committed.status == w0.committed.status[task := Completed]
    && (forall j :: 0 <= j < |items| ==> !HasRecord(w0.committed, items[j].record))
    && TablesHold(w0.tables, w.tables, items, |items|)
  }

  // ---- Rolling back ----

  /** Every table is as it was, or kept in a backup that belongs to one of `items[..n]`. */
  predicate Restorable(w0: World, w: World, items: seq<Item>, n: nat)
    requires n <= |items|
  {
    && WorldOk(w0) && WorldOk(w)
    && (forall c :: 0 <= c < CHANNELS ==> w.tables[c] == w0.tables[c] || (w.backups[c].Backup? && OfItems(items, n, c)))
    && (forall c :: 0 <= c < CHANNELS && w.backups[c].Backup? ==> w.backups[c].table == w0.tables[c])
  }

  /** Only tables, backups and the number of calls differ. */
  predicate SameDb(w: World, t: World) {
    t.committed == w.committed && t.open == w.open && t.working == w.working && t.flash == w.flash && t.outbox == w.outbox
  }

  lemma OfFewer(items: seq<Item>, n: nat, c: nat)
    requires 0 < n <= |items|
    ensures OfItems(items, n, c) <==> OfItems(items, n - 1, c) || items[n - 1].channel == c
  {
    if OfItems(items, n, c) && items[n - 1].channel != c {
      var j :| 0 <= j < n && items[j].channel == c;
      assert j < n - 1;
    }
  }

  /** Working rollbacks bring every table back, whatever the failed write left in it, and even where the
      rollback of an item reports failure because its backup was never taken. */
  lemma {:induction false} RollbackRestores(f: Fates, w0: World, w: World, items: seq<Item>, n: nat, ops: Ops)
    requires n <= |items| && Restorable(w0, w, items, n) && RollbacksWork(f) && ops.metadataRollback
    ensures var r := RollbackAll(f, w, items, n, ops).0; r.tables == w0.tables && SameDb(w, r)
    decreases n
  {
    if n == 0 {
      assert forall c :: 0 <= c < CHANNELS ==> w.tables[c] == w0.tables[c];
    } else {
      var step := MetadataRollbackOp(f, w, items[n - 1]).0;
      assert f(MetadataRollback, w.calls) == Fine;
      forall c | 0 <= c < CHANNELS
        ensures step.tables[c] == w0.tables[c] || (step.backups[c].Backup? && OfItems(items, n - 1, c))
      {
        OfFewer(items, n, c);
      }
      RollbackRestores(f, w0, step, items, n - 1, ops);
    }
  }

  lemma GivingUpRestores(f: Fates, w0: World, w: World, task: string, items: seq<Item>, n: nat, ops: Ops, reason: Reason)
    requires n <= |items| && Restorable(w0, w, items, n) && RollbacksWork(f) && ops.metadataRollback
    requires w.open && w.committed == w0.committed && reason != OutboxPersistFailed
    ensures var r := GivingUp(f, w, task, items, n, ops, reason);
            r.rc == -1 && Untouched(w0, r.w) && r.state.reason != OutboxPersistFailed
  {
    assert f(Rollback, w.calls) == Fine;
    var undone := RollbackDbOp(f, w).0;
    RollbackRestores(f, w0, undone, items, n, ops);
  }

  // ---- Going forward ----

  lemma {:induction false} CheckAllFinds(f: Fates, w: World, items: seq<Item>, i: nat)
    requires WorldOk(w) && i <= |items|
    ensures var r := CheckAll(f, w, items, i);
            && SameDb(w, r.0) && r.0.tables == w.tables && r.0.backups == w.backups
            && (r.1 == 0 ==> forall j :: i <= j < |items| ==> !HasRecord(w.working, items[j].record))
    decreases |items| - i
  {
    if i != |items| {
      var e := ExistsOp(f, w, items[i].record);
      if e.1 == 0 { CheckAllFinds(f, e.0, items, i + 1); }
    }
  }

  /** While the metadata of `items[..i]` is written: their backups are taken, the rest is untouched. */
  predicate Midway(w0: World, w: World, items: seq<Item>, i: nat)
    requires i <= |items|
  {
    && WorldOk(w0) && WorldOk(w) && TablesHold(w0.tables, w.tables, items, i)
    && (forall c :: 0 <= c < CHANNELS ==>
          w.backups[c] == if OfItems(items, i, c) then Backup(w0.tables[c]) else NoBackup)
  }

  lemma MidwayRestorable(w0: World, w: World, items: seq<Item>, i: nat)
    requires i <= |items| && Midway(w0, w, items, i)
    ensures Restorable(w0, w, items, i)
  {
  }

  lemma WriteStep(f: Fates, w0: World, w: World, items: seq<Item>, i: nat)
    requires i < |items| && Midway(w0, w, items, i) && DistinctChannels(items)
    ensures var m := MetadataWriteOp(f, w, items[i]);
            && SameDb(w, m.0) && Restorable(w0, m.0, items, i + 1)
            && (m.1 ==> Midway(w0, m.0, items, i + 1))
  {
    var m := MetadataWriteOp(f, w, items[i]);
    forall c | 0 <= c < CHANNELS
      ensures OfItems(items, i + 1, c) <==> OfItems(items, i, c) || items[i].channel == c
    {
      OfFewer(items, i + 1, c);
    }
    assert !OfItems(items, i, items[i].channel);
  }

  lemma {:induction false} WriteAllRestorable(f: Fates, w0: World, w: World, items: seq<Item>, i: nat)
    requires i <= |items| && Midway(w0, w, items, i) && DistinctChannels(items)
    ensures var r := WriteAll(f, w, items, i);
            && SameDb(w, r.w) && Restorable(w0, r.w, items, r.count)
            && (r.ok ==> TablesHold(w0.tables, r.w.tables, items, |items|))
    decreases |items| - i
  {
    if i == |items| {
      MidwayRestorable(w0, w, items, i);
    } else {
      WriteStep(f, w0, w, items, i);
      var m := MetadataWriteOp(f, w, items[i]);
      if m.1 { WriteAllRestorable(f, w0, m.0, items, i + 1); }
    }
  }

  /** Only the open transaction and the number of calls differ. */
  predicate SameFiles(w: World, t: World) {
    && t.committed == w.committed && t.open == w.open && t.tables == w.tables && t.backups == w.backups
    && t.flash == w.flash && t.outbox == w.outbox
  }

  lemma {:induction false} InsertAllAppends(f: Fates, w: World, items: seq<Item>, i: nat)
    requires WorldOk(w) && w.open && i <= |items|
    ensures var r := InsertAll(f, w, items, i);
            && SameFiles(w, r.0) && r.0.working.totals == w.working.totals && r.0.working.status == w.working.status
            && (r.1 ==> r.0.working.records == w.working.records + RecordsOf(items)[i..])
    decreases |items| - i
  {
    if i != |items| {
      var m := InsertOp(f, w, items[i].record);
      if m.1 {
        InsertAllAppends(f, m.0, items, i + 1);
        assert RecordsOf(items)[i..] == [items[i].record] + RecordsOf(items)[i + 1..];
      }
    }
  }

  lemma RestorableSame(w0: World, w: World, t: World, items: seq<Item>, n: nat)
    requires n <= |items| && Restorable(w0, w, items, n) && t.tables == w.tables && t.backups == w.backups
    ensures Restorable(w0, t, items, n)
  {
  }

  /** What a result must be. */
  predicate Outcome(w0: World, r: Result, task: string, items: seq<Item>, ops: Ops) {
    && r.state.attempted && r.rc in {0, -1} && (r.state.success <==> r.rc == 0)
    && (r.rc == 0 ==> Stored(w0, r.w, task, items))
    && (r.rc == 0 ==> if r.state.syncPending then task in r.w.outbox else ops.flashSync ==> r.w.flash == r.w.committed.records)
    && (r.rc == -1 ==> if r.state.reason == OutboxPersistFailed then Stored(w0, r.w, task, items) else Untouched(w0, r.w))
  }

  lemma ReplicatingOutcome(f: Fates, w0: World, w: World, task: string, items: seq<Item>, ops: Ops)
    requires Stored(w0, w, task, items)
    ensures Outcome(w0, Replicating(f, w, task, ops), task, items, ops)
  {
  }

  /** The transaction once records and metadata are in it. */
  predicate Filled(w0: World, w: World, items: seq<Item>) {
    && w.open && w.committed == w0.committed
    && w.working.records == w0.committed.records + RecordsOf(items)
    && w.working.totals == w0.committed.totals && w.working.status == w0.committed.status
    && TablesHold(w0.tables, w.tables, items, |items|)
    && (forall j :: 0 <= j < |items| ==> !HasRecord(w0.committed, items[j].record))
  }

  lemma ClosingOutcome(f: Fates, w0: World, w: World, task: string, items: seq<Item>, ops: Ops)
    requires Filled(w0, w, items) && Restorable(w0, w, items, |items|) && RollbacksWork(f) && ops.metadataRollback
    ensures Outcome(w0, Closing(f, w, task, items, ops), task, items, ops)
  {
    var n, counted := |items|, Called(w);
    var t := TotalOp(f, counted, task, CountFor(w.working.records, task));
    var s := StatusOp(f, t.0, task, Completed);
    var c := CommitDbOp(f, s.0);
    RestorableSame(w0, w, counted, items, n);
    RestorableSame(w0, w, t.0, items, n);
    RestorableSame(w0, w, s.0, items, n);
    RestorableSame(w0, w, c.0, items, n);
    if !Ok(f, w, Count) { GivingUpRestores(f, w0, counted, task, items, n, ops, DbCountFailed); }
    else if !t.1 { GivingUpRestores(f, w0, t.0, task, items, n, ops, TotalFilesUpdateFailed); }
    else if !s.1 { GivingUpRestores(f, w0, s.0, task, items, n, ops, TaskCompletedUpdateFailed); }
    else if !c.1 { GivingUpRestores(f, w0, c.0, task, items, n, ops, DbCommitFailed); }
    else { ReplicatingOutcome(f, w0, c.0, task, items, ops); }
  }

  lemma TransactionOutcome(f: Fates, w0: World, w: World, task: string, items: seq<Item>, ops: Ops)
    requires Midway(w0, w, items, 0) && w.tables == w0.tables && w.open && w.committed == w.working == w0.committed
    requires DistinctChannels(items) && RollbacksWork(f) && ops.metadataRollback
    ensures Outcome(w0, Transaction(f, w, task, items, ops), task, items, ops)
  {
    CheckAllFinds(f, w, items, 0);
    var checked := CheckAll(f, w, items, 0);
    MidwayRestorable(w0, w, items, 0);
    RestorableSame(w0, w, checked.0, items, 0);
    if checked.1 != 0 {
      GivingUpRestores(f, w0, checked.0, task, items, 0, ops, if checked.1 > 0 then DuplicateRecord else DuplicateCheckFailed);
    } else {
      WriteAllRestorable(f, w0, checked.0, items, 0);
      var written := WriteAll(f, checked.0, items, 0);
      if !written.ok {
        GivingUpRestores(f, w0, written.w, task, items, written.count, ops, MetadataWriteFailed);
      } else {
        WrittenOutcome(f, w0, written.w, task, items, ops);
      }
    }
  }

  lemma WrittenOutcome(f: Fates, w0: World, w: World, task: string, items: seq<Item>, ops: Ops)
    requires Restorable(w0, w, items, |items|) && TablesHold(w0.tables, w.tables, items, |items|)
    requires w.open && w.committed == w.working == w0.committed && RollbacksWork(f) && ops.metadataRollback
    requires forall j :: 0 <= j < |items| ==> !HasRecord(w0.committed, items[j].record)
    ensures var inserted := InsertAll(f, w, items, 0);
            Outcome(w0, if !inserted.1 then GivingUp(f, inserted.0, task, items, |items|, ops, DbInsertFailed)
                        else Closing(f, inserted.0, task, items, ops), task, items, ops)
  {
    InsertAllAppends(f, w, items, 0);
    var inserted := InsertAll(f, w, items, 0);
    RestorableSame(w0, w, inserted.0, items, |items|);
    if !inserted.1 {
      GivingUpRestores(f, w0, inserted.0, task, items, |items|, ops, DbInsertFailed);
    } else {
      assert RecordsOf(items)[0..] == RecordsOf(items);
      ClosingOutcome(f, w0, inserted.0, task, items, ops);
    }
  }

  // ---- The theorems ----

  /** Atomic: whatever operations fail, with working rollbacks the records and metadata end either wholly
      committed or exactly as before. A return of 0 means committed, and flashed or noted in the outbox; a
      return of -1 with the data committed happens only when that note could not be made. */
  lemma CommitIsAtomic(f: Fates, w: World, task: string, items: seq<Item>, ops: Ops)
    requires WorldOk(w) && !w.open && forall c :: 0 <= c < CHANNELS ==> w.backups[c] == NoBackup
    requires DistinctChannels(items) && RollbacksWork(f) && ops.metadataRollback
    ensures Outcome(w, RunOnce(f, FRESH_STATE, w, task, items, ops), task, items, ops)
  {
    if InputOk(task, items, ops) {
      var b := BeginOp(f, w);
      if b.1 { TransactionOutcome(f, w, b.0, task, items, ops); }
    }
  }

  /** Runs once: a second call performs no operation and gives the first call's verdict again. */
  lemma CommitRunsOnce(f: Fates, w: World, task: string, items: seq<Item>, ops: Ops,
                       g: Fates, v: World, task2: string, items2: seq<Item>, ops2: Ops)
    requires WorldOk(w) && WorldOk(v)
    ensures var first := RunOnce(f, FRESH_STATE, w, task, items, ops);
            var second := RunOnce(g, first.state, v, task2, items2, ops2);
            second.w == v && second.state == first.state && second.rc == first.rc
  {
  }

  // ---- Why the channels must differ ----

  /** Every operation works but the insertion of records. */
  function InsertFails(): Fates {
    (op: Op, k: nat) => if op == Insert then Fails else Fine
  }

  /** Items that can be written: a free slot each, an entry that counts as a file, and no record yet. */
  predicate Writeable(w: World, items: seq<Item>)
    requires WorldOk(w)
  {
    forall j :: 0 <= j < |items| ==>
      && items[j].channel < CHANNELS && items[j].slot < MAX_FILES && items[j].metadata.valid
      && !w.tables[items[j].channel][items[j].slot].valid && !HasRecord(w.committed, items[j].record)
  }

  /** Entry `slot` of channel `c` is taken, and would still be after a rollback. */
  predicate Stuck(w: World, c: nat, slot: nat)
    requires WorldOk(w) && c < CHANNELS && slot < MAX_FILES
  {
    w.tables[c][slot].valid && (w.backups[c].Backup? ==> w.backups[c].table[slot].valid)
  }

  lemma {:induction false} CheckAllFinds0(f: Fates, w: World, items: seq<Item>, i: nat)
    requires WorldOk(w) && i <= |items| && f == InsertFails()
    requires forall j :: 0 <= j < |items| ==> !HasRecord(w.working, items[j].record)
    ensures CheckAll(f, w, items, i).1 == 0
    decreases |items| - i
  {
    if i != |items| { CheckAllFinds0(f, ExistsOp(f, w, items[i].record).0, items, i + 1); }
  }

  /** Once two items of channel `c` were tried the backup of the first is gone, and later writes keep it so. */
  lemma {:induction false} WritesStayStuck(f: Fates, w: World, items: seq<Item>, i: nat, c: nat, slot: nat)
    requires WorldOk(w) && i <= |items| && c < CHANNELS && slot < MAX_FILES && Stuck(w, c, slot) && f == InsertFails()
    ensures Stuck(WriteAll(f, w, items, i).w, c, slot)
    decreases |items| - i
  {
    if i != |items| {
      var m := MetadataWriteOp(f, w, items[i]);
      assert Stuck(m.0, c, slot);
      if m.1 { WritesStayStuck(f, m.0, items, i + 1, c, slot); }
    }
  }

  /** From item `i` on, up to the second item of channel `c`, every write works. */
  lemma {:induction false} WritesGetStuck(f: Fates, w: World, items: seq<Item>, i: nat, b: nat, c: nat, slot: nat)
    requires WorldOk(w) && i <= b < |items| && c < CHANNELS && slot < MAX_FILES && w.tables[c][slot].valid && f == InsertFails()
    requires items[b].channel == c && items[b].slot < MAX_FILES
    requires forall j, k :: i <= j < k < b ==> items[j].channel != items[k].channel
    requires forall j :: i <= j < b ==> items[j].channel < CHANNELS && items[j].slot < MAX_FILES && items[j].channel != c
    requires forall j :: i <= j < b ==> !w.tables[items[j].channel][items[j].slot].valid
    ensures Stuck(WriteAll(f, w, items, i).w, c, slot)
    decreases b - i
  {
    var m := MetadataWriteOp(f, w, items[i]);
    if i == b {
      assert Stuck(m.0, c, slot);
      if m.1 { WritesStayStuck(f, m.0, items, i + 1, c, slot); }
    } else {
      WritesGetStuck(f, m.0, items, i + 1, b, c, slot);
    }
  }

  /** Before the first item of the channel, too. */
  lemma {:induction false} WritesReach(f: Fates, w: World, items: seq<Item>, i: nat, a: nat, b: nat)
    requires WorldOk(w) && i <= a < b < |items| && f == InsertFails() && items[a].channel == items[b].channel && items[a].metadata.valid
    requires forall j, k :: i <= j < k < b ==> items[j].channel != items[k].channel
    requires forall j :: i <= j <= b ==> items[j].channel < CHANNELS && items[j].slot < MAX_FILES
    requires forall j :: i <= j < b ==> !w.tables[items[j].channel][items[j].slot].valid
    ensures Stuck(WriteAll(f, w, items, i).w, items[a].channel, items[a].slot)
    decreases a - i
  {
    var m := MetadataWriteOp(f, w, items[i]);
    if i == a {
      WritesGetStuck(f, m.0, items, i + 1, b, items[a].channel, items[a].slot);
    } else {
      WritesReach(f, m.0, items, i + 1, a, b);
    }
  }

  lemma {:induction false} RollbackStaysStuck(f: Fates, w: World, items: seq<Item>, n: nat, ops: Ops, c: nat, slot: nat)
    requires WorldOk(w) && n <= |items| && c < CHANNELS && slot < MAX_FILES && Stuck(w, c, slot) && f == InsertFails()
    ensures Stuck(RollbackAll(f, w, items, n, ops).0, c, slot)
    decreases n
  {
    if n != 0 {
      var step := if ops.metadataRollback then MetadataRollbackOp(f, w, items[n - 1]).0 else w;
      RollbackStaysStuck(f, step, items, n - 1, ops, c, slot);
    }
  }

  /** The first two items on one channel. */
  lemma {:induction false} FirstPair(items: seq<Item>, n: nat) returns (a: nat, b: nat)
    requires n <= |items| && exists i, j :: 0 <= i < j < n && items[i].channel == items[j].channel
    ensures a < b < n && items[a].channel == items[b].channel
    ensures forall j, k :: 0 <= j < k < b ==> items[j].channel != items[k].channel
    decreases n
  {
    if exists i, j :: 0 <= i < j < n - 1 && items[i].channel == items[j].channel {
      a, b := FirstPair(items, n - 1);
    } else {
      var i, j :| 0 <= i < j < n && items[i].channel == items[j].channel;
      a, b := i, j;
    }
  }

  lemma StuckAfterGivingUp(f: Fates, w: World, task: string, items: seq<Item>, n: nat, ops: Ops, reason: Reason, c: nat, slot: nat)
    requires WorldOk(w) && n <= |items| && c < CHANNELS && slot < MAX_FILES && Stuck(w, c, slot) && f == InsertFails()
    requires reason != OutboxPersistFailed
    ensures var r := GivingUp(f, w, task, items, n, ops, reason);
            r.w.tables[c][slot].valid && r.rc == -1 && r.state.reason != OutboxPersistFailed
  {
    RollbackStaysStuck(f, RollbackDbOp(f, w).0, items, n, ops, c, slot);
  }

  /** With metadata stuck, the first insertion fails and so does the transaction, leaving it stuck. */
  lemma InsertingFails(f: Fates, w: World, task: string, items: seq<Item>, ops: Ops, c: nat, slot: nat)
    requires WorldOk(w) && items != [] && c < CHANNELS && slot < MAX_FILES && Stuck(w, c, slot) && f == InsertFails()
    ensures var inserted := InsertAll(f, w, items, 0); !inserted.1 && Stuck(inserted.0, c, slot)
  {
  }

  lemma TransactionStuck(f: Fates, w: World, task: string, items: seq<Item>, ops: Ops, checked: World, c: nat, slot: nat)
    requires WorldOk(w) && items != [] && c < CHANNELS && slot < MAX_FILES && f == InsertFails()
    requires CheckAll(f, w, items, 0) == (checked, 0) && Stuck(WriteAll(f, checked, items, 0).w, c, slot)
    ensures var r := Transaction(f, w, task, items, ops);
            r.w.tables[c][slot].valid && r.rc == -1 && r.state.reason != OutboxPersistFailed
  {
    var written := WriteAll(f, checked, items, 0);
    if !written.ok {
      StuckAfterGivingUp(f, written.w, task, items, written.count, ops, MetadataWriteFailed, c, slot);
    } else {
      InsertingFails(f, written.w, task, items, ops, c, slot);
      StuckAfterGivingUp(f, InsertAll(f, written.w, items, 0).0, task, items, |items|, ops, DbInsertFailed, c, slot);
    }
  }

  /** The items pass the checks and are written until the second one on a channel. */
  lemma ChecksAndWrites(w: World, items: seq<Item>) returns (a: nat, checked: World)
    requires WorldOk(w) && w.working == w.committed && Writeable(w, items) && !DistinctChannels(items)
    ensures a < |items| && CheckAll(InsertFails(), w, items, 0) == (checked, 0) && checked.tables == w.tables
    ensures WorldOk(checked) && Stuck(WriteAll(InsertFails(), checked, items, 0).w, items[a].channel, items[a].slot)
  {
    var b: nat;
    a, b := FirstPair(items, |items|);
    CheckAllFinds0(InsertFails(), w, items, 0);
    CheckAllFinds(InsertFails(), w, items, 0);
    checked := CheckAll(InsertFails(), w, items, 0).0;
    WritesReach(InsertFails(), checked, items, 0, a, b);
  }

  lemma BeginsTransaction(w: World, task: string, items: seq<Item>, ops: Ops)
    requires WorldOk(w) && InputOk(task, items, ops)
    ensures BeginOp(InsertFails(), w).0 == Called(w).(open := true, working := w.committed)
    ensures RunOnce(InsertFails(), FRESH_STATE, w, task, items, ops) == Transaction(InsertFails(), BeginOp(InsertFails(), w).0, task, items, ops)
  {
  }

  /** With two items on one channel a failing insertion leaves the first one's entry in the table. */
  lemma SharedChannelNotAtomic(w: World, task: string, items: seq<Item>, ops: Ops)
    requires WorldOk(w) && !w.open && InputOk(task, items, ops) && Writeable(w, items) && !DistinctChannels(items)
    ensures !Outcome(w, RunOnce(InsertFails(), FRESH_STATE, w, task, items, ops), task, items, ops)
  {
    BeginsTransaction(w, task, items, ops);
    var begun := Called(w).(open := true, working := w.committed);
    var a, checked := ChecksAndWrites(begun, items);
    TransactionStuck(InsertFails(), begun, task, items, ops, checked, items[a].channel, items[a].slot);
  }

  /** Whatever operations fail, as long as those that undo something work. */
  ghost predicate AlwaysAtomic(w: World, task: string, items: seq<Item>, ops: Ops)
    requires WorldOk(w)
  {
    forall f: Fates :: RollbacksWork(f) ==> Outcome(w, RunOnce(f, FRESH_STATE, w, task, items, ops), task, items, ops)
  }

  /** Exactly: items that can be written are committed atomically under every pattern of failures if and only
      if no two of them are on one channel. */
  lemma AtomicIffChannelsDiffer(w: World, task: string, items: seq<Item>, ops: Ops)
    requires WorldOk(w) && !w.open && forall c :: 0 <= c < CHANNELS ==> w.backups[c] == NoBackup
    requires InputOk(task, items, ops) && Writeable(w, items) && ops.metadataRollback
    ensures AlwaysAtomic(w, task, items, ops) <==> DistinctChannels(items)
  {
    if DistinctChannels(items) {
      forall f: Fates | RollbacksWork(f) { CommitIsAtomic(f, w, task, items, ops); }
    } else {
      SharedChannelNotAtomic(w, task, items, ops);
      assert RollbacksWork(InsertFails());
    }
  }
}

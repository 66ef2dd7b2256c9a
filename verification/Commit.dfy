/** The transactional commit of a task's files: database records and metadata tables, with rollback, when
    any operation may fail at any time. */
module Commit {
  import opened Metadata

  const CHANNELS: nat := 3

  type FileTable = t: Table | |t| == MAX_FILES witness seq(MAX_FILES, _ => NO_ENTRY)

  datatype TaskStatus = Pending | Completed | Failed

  datatype Record = Record(task: string, index: nat, channel: nat, startSector: nat, sectors: nat, size: nat)

  datatype Item = Item(channel: nat, slot: nat, metadata: FileEntry, record: Record)

  datatype Db = Db(records: seq<Record>, status: map<string, TaskStatus>, totals: map<string, nat>)

  datatype Backup = NoBackup | Backup(table: FileTable)

  /** Database, metadata files, their backups, the flash replica and the outbox of syncs still to be made;
      `calls` counts the operations performed so far. */
  datatype World = World(committed: Db, open: bool, working: Db, tables: seq<FileTable>, backups: seq<Backup>,
                         flash: seq<Record>, outbox: set<string>, calls: nat)

  predicate WorldOk(w: World) {
    |w.tables| == |w.backups| == CHANNELS
  }

  // ---- Failures ----

  datatype Op =
    | Begin | Exists | MetadataWrite | MetadataRollback | Insert | Count | TotalUpdate | StatusUpdate
    | CommitOp | Rollback | FlashSync | MarkPending | MarkComplete

  /** What becomes of one operation. A failing metadata write may leave anything in the file. */
  datatype Fate = Fine | Fails | Torn(table: FileTable)

  /** The fate of every operation that may be performed, by its kind and its number. */
  type Fates = (Op, nat) -> Fate

  /** Every rollback that is tried works. */
  ghost predicate RollbacksWork(f: Fates) {
    forall k :: f(Rollback, k) == Fine && f(MetadataRollback, k) == Fine
  }

  /** Which optional operations the caller supplies, and whether it supplies all the required ones. */
  datatype Ops = Ops(complete: bool, metadataRollback: bool, flashSync: bool, markPending: bool, markComplete: bool)

  // ---- The operations ----

  function Called(w: World): World {
    w.(calls := w.calls + 1)
  }

  function Ok(f: Fates, w: World, op: Op): bool {
    f(op, w.calls) == Fine
  }

  function BeginOp(f: Fates, w: World): (World, bool) {
    if Ok(f, w, Begin) then (Called(w).(open := true, working := w.committed), true) else (Called(w), false)
  }

  predicate HasRecord(db: Db, r: Record) {
    exists k :: 0 <= k < |db.records| && db.records[k].task == r.task && db.records[k].index == r.index
  }

  /** 1 when there is such a record, 0 when there is none, -1 on failure. */
  function ExistsOp(f: Fates, w: World, r: Record): (World, int) {
    (Called(w), if !Ok(f, w, Exists) then -1 else if HasRecord(w.working, r) then 1 else 0)
  }

  /** `storage_commit_metadata_write`: read the table, keep it, write it back with the entry added. */
  function MetadataWriteOp(f: Fates, w: World, it: Item): (World, bool)
    requires WorldOk(w)
  {
    var c := Called(w);
    var fate := f(MetadataWrite, w.calls);
    if it.channel >= CHANNELS || it.slot >= MAX_FILES || fate == Fails then (c, false)
    else
      var kept := c.(backups := w.backups[it.channel := Backup(w.tables[it.channel])]);
      if w.tables[it.channel][it.slot].valid then (kept, false)
      else if fate.Torn? then (kept.(tables := w.tables[it.channel := fate.table]), false)
      else
        var table: FileTable := w.tables[it.channel][it.slot := it.metadata];
        (kept.(tables := w.tables[it.channel := table]), true)
  }

  /** `storage_commit_metadata_rollback`: write the kept table back. */
  function MetadataRollbackOp(f: Fates, w: World, it: Item): (World, bool)
    requires WorldOk(w)
  {
    var c := Called(w);
    if it.channel >= CHANNELS || w.backups[it.channel].NoBackup? then (c, false)
    else
      match f(MetadataRollback, w.calls)
      case Fine => (c.(tables := w.tables[it.channel := w.backups[it.channel].table],
                       backups := w.backups[it.channel := NoBackup]), true)
      case Fails => (c, false)
      case Torn(t) => (c.(tables := w.tables[it.channel := t]), false)
  }

  /** A change of the database: part of the transaction when one is open, made at once otherwise. */
  function Changed(w: World, db: Db): World {
    if w.open then w.(working := db) else w.(committed := db)
  }

  function Current(w: World): Db {
    if w.open then w.working else w.committed
  }

  function InsertOp(f: Fates, w: World, r: Record): (World, bool) {
    if Ok(f, w, Insert) then (Changed(Called(w), Current(w).(records := Current(w).records + [r])), true)
    else (Called(w), false)
  }

  function CountFor(records: seq<Record>, task: string): nat {
    if records == [] then 0
    else CountFor(records[..|records| - 1], task) + (if records[|records| - 1].task == task then 1 else 0)
  }

  function TotalOp(f: Fates, w: World, task: string, total: nat): (World, bool) {
    if Ok(f, w, TotalUpdate) then (Changed(Called(w), Current(w).(totals := Current(w).totals[task := total])), true)
    else (Called(w), false)
  }

  function StatusOp(f: Fates, w: World, task: string, status: TaskStatus): (World, bool) {
    if Ok(f, w, StatusUpdate) then (Changed(Called(w), Current(w).(status := Current(w).status[task := status])), true)
    else (Called(w), false)
  }

  function CommitDbOp(f: Fates, w: World): (World, bool) {
    if Ok(f, w, CommitOp) then (Called(w).(open := false, committed := w.working), true) else (Called(w), false)
  }

  function RollbackDbOp(f: Fates, w: World): (World, bool) {
    if Ok(f, w, Rollback) then (Called(w).(open := false), true) else (Called(w), false)
  }

  function FlashOp(f: Fates, w: World): (World, bool) {
    if Ok(f, w, FlashSync) then (Called(w).(flash := w.committed.records), true) else (Called(w), false)
  }

  function PendingOp(f: Fates, w: World, task: string): (World, bool) {
    if Ok(f, w, MarkPending) then (Called(w).(outbox := w.outbox + {task}), true) else (Called(w), false)
  }

  function CompleteOp(f: Fates, w: World, task: string): (World, bool) {
    if Ok(f, w, MarkComplete) then (Called(w).(outbox := w.outbox - {task}), true) else (Called(w), false)
  }

  // ---- The commit ----

  datatype Reason =
    | NotAttempted | NoneAtAll | InvalidInput | DbBeginFailed | DuplicateRecord | DuplicateCheckFailed
    | MetadataWriteFailed | DbInsertFailed | DbCountFailed | TotalFilesUpdateFailed | TaskCompletedUpdateFailed
    | DbCommitFailed | DbRollbackFailed | MetadataRollbackFailed | TaskFailedUpdateFailed
    | OutboxPersistFailed | SyncPending

  datatype CommitState = CommitState(attempted: bool, success: bool, syncPending: bool, reason: Reason)

  const FRESH_STATE := CommitState(false, false, false, NotAttempted)

  datatype Result = Result(state: CommitState, w: World, rc: int)

  predicate InputOk(task: string, items: seq<Item>, ops: Ops) {
    task != [] && 0 < |items| <= CHANNELS && ops.complete
  }

  /** Rolls back the metadata of `items[..n]`, last first; whether all of it worked. */
  function RollbackAll(f: Fates, w: World, items: seq<Item>, n: nat, ops: Ops): (r: (World, bool))
    requires WorldOk(w) && n <= |items|
    ensures WorldOk(r.0)
    decreases n
  {
    if n == 0 then (w, true)
    else
      var step := if ops.metadataRollback then MetadataRollbackOp(f, w, items[n - 1]) else (w, false);
      var rest := RollbackAll(f, step.0, items, n - 1, ops);
      (rest.0, step.1 && rest.1)
  }

  /** `rollback_failure`: undo the transaction and the metadata of `items[..n]`, then mark the task failed. */
  function GivingUp(f: Fates, w: World, task: string, items: seq<Item>, n: nat, ops: Ops, reason: Reason): (r: Result)
    requires WorldOk(w) && n <= |items|
    ensures WorldOk(r.w)
  {
    var undone := RollbackDbOp(f, w);
    var restored := RollbackAll(f, undone.0, items, n, ops);
    var told := StatusOp(f, restored.0, task, Failed);
    var last := if !told.1 && restored.1 then TaskFailedUpdateFailed
                else if !restored.1 then MetadataRollbackFailed
                else if !undone.1 then DbRollbackFailed
                else reason;
    Result(CommitState(true, false, false, last), told.0, -1)
  }

  /** The checks for duplicates, from item `i` on: 0 when there is none. */
  function CheckAll(f: Fates, w: World, items: seq<Item>, i: nat): (r: (World, int))
    requires WorldOk(w) && i <= |items|
    ensures WorldOk(r.0)
    decreases |items| - i
  {
    if i == |items| then (w, 0)
    else
      var e := ExistsOp(f, w, items[i].record);
      if e.1 != 0 then e else CheckAll(f, e.0, items, i + 1)
  }

  datatype Written = Written(w: World, count: nat, ok: bool)

  /** The metadata writes from item `i` on; `count` includes the one that failed. */
  function WriteAll(f: Fates, w: World, items: seq<Item>, i: nat): (r: Written)
    requires WorldOk(w) && i <= |items|
    ensures WorldOk(r.w) && i <= r.count <= |items| && (r.ok ==> r.count == |items|)
    decreases |items| - i
  {
    if i == |items| then Written(w, i, true)
    else
      var m := MetadataWriteOp(f, w, items[i]);
      if m.1 then WriteAll(f, m.0, items, i + 1) else Written(m.0, i + 1, false)
  }

  function InsertAll(f: Fates, w: World, items: seq<Item>, i: nat): (r: (World, bool))
    requires WorldOk(w) && i <= |items|
    ensures WorldOk(r.0)
    decreases |items| - i
  {
    if i == |items| then (w, true)
    else
      var m := InsertOp(f, w, items[i].record);
      if m.1 then InsertAll(f, m.0, items, i + 1) else m
  }

  /** After the database commit: the flash replica, or a durable note that it is still to be made. */
  function Replicating(f: Fates, w: World, task: string, ops: Ops): Result {
    var flashed := if ops.flashSync then FlashOp(f, w) else (w, true);
    var noted := if flashed.1 && ops.markComplete then CompleteOp(f, flashed.0, task) else flashed;
    if noted.1 then Result(CommitState(true, true, false, NoneAtAll), noted.0, 0)
    else
      var marked := if ops.markPending then PendingOp(f, noted.0, task) else (noted.0, false);
      if marked.1 then Result(CommitState(true, true, true, SyncPending), marked.0, 0)
      else Result(CommitState(true, false, false, OutboxPersistFailed), marked.0, -1)
  }

  /** The database side once all records are inserted. */
  function Closing(f: Fates, w: World, task: string, items: seq<Item>, ops: Ops): (r: Result)
    requires WorldOk(w)
    ensures WorldOk(r.w)
  {
    var n := |items|;
    var counted := Called(w);
    var total := CountFor(w.working.records, task);
    if !Ok(f, w, Count) then GivingUp(f, counted, task, items, n, ops, DbCountFailed)
    else
      var t := TotalOp(f, counted, task, total);
      if !t.1 then GivingUp(f, t.0, task, items, n, ops, TotalFilesUpdateFailed)
      else
        var s := StatusOp(f, t.0, task, Completed);
        if !s.1 then GivingUp(f, s.0, task, items, n, ops, TaskCompletedUpdateFailed)
        else
          var c := CommitDbOp(f, s.0);
          if !c.1 then GivingUp(f, c.0, task, items, n, ops, DbCommitFailed)
          else Replicating(f, c.0, task, ops)
  }

  /** The transaction, once it is open. */
  function Transaction(f: Fates, w: World, task: string, items: seq<Item>, ops: Ops): (r: Result)
    requires WorldOk(w)
    ensures WorldOk(r.w)
  {
    var checked := CheckAll(f, w, items, 0);
    if checked.1 != 0 then
      GivingUp(f, checked.0, task, items, 0, ops, if checked.1 > 0 then DuplicateRecord else DuplicateCheckFailed)
    else
      var written := WriteAll(f, checked.0, items, 0);
      if !written.ok then GivingUp(f, written.w, task, items, written.count, ops, MetadataWriteFailed)
      else
        var inserted := InsertAll(f, written.w, items, 0);
        if !inserted.1 then GivingUp(f, inserted.0, task, items, |items|, ops, DbInsertFailed)
        else Closing(f, inserted.0, task, items, ops)
  }

  /** `storage_commit_run_once`. */
  function RunOnce(f: Fates, state: CommitState, w: World, task: string, items: seq<Item>, ops: Ops): (r: Result)
    requires WorldOk(w)
    ensures WorldOk(r.w)
  {
    if state.attempted then Result(state, w, if state.success then 0 else -1)
    else if !InputOk(task, items, ops) then Result(CommitState(true, false, false, InvalidInput), w, -1)
    else
      var b := BeginOp(f, w);
      if !b.1 then Result(CommitState(true, false, false, DbBeginFailed), StatusOp(f, b.0, task, Failed).0, -1)
      else Transaction(f, b.0, task, items, ops)
  }

  // ---- The same as the loops that run ----

  method RollBack(f: Fates, w0: World, task: string, items: seq<Item>, n: nat, ops: Ops, reason: Reason) returns (r: Result)
    requires WorldOk(w0) && n <= |items|
    ensures r == GivingUp(f, w0, task, items, n, ops, reason)
  {
    var last := reason;
    var w, done := RollbackDbOp(f, w0).0, RollbackDbOp(f, w0).1;
    if !done { last := DbRollbackFailed; }
    var left: nat, failed := n, false;
    ghost var goal := RollbackAll(f, w, items, n, ops);
    while left > 0
      invariant left <= n && WorldOk(w)
      invariant goal == (RollbackAll(f, w, items, left, ops).0, !failed && RollbackAll(f, w, items, left, ops).1)
    {
      left := left - 1;
      if ops.metadataRollback {
        var step := MetadataRollbackOp(f, w, items[left]);
        w := step.0;
        if !step.1 { failed := true; }
      } else {
        failed := true;
      }
    }
    if failed { last := MetadataRollbackFailed; }
    var told := StatusOp(f, w, task, Failed);
    if !told.1 && !failed { last := TaskFailedUpdateFailed; }
    r := Result(CommitState(true, false, false, last), told.0, -1);
  }

  method CheckDuplicates(f: Fates, w0: World, items: seq<Item>) returns (w: World, exists_: int)
    requires WorldOk(w0)
    ensures (w, exists_) == CheckAll(f, w0, items, 0)
  {
    w, exists_ := w0, 0;
    var i := 0;
    while i < |items|
      invariant i <= |items| && WorldOk(w) && CheckAll(f, w0, items, 0) == CheckAll(f, w, items, i)
    {
      var e := ExistsOp(f, w, items[i].record);
      w, exists_ := e.0, e.1;
      if exists_ != 0 { return; }
      i := i + 1;
    }
    exists_ := 0;
  }

  method WriteMetadata(f: Fates, w0: World, items: seq<Item>) returns (w: World, count: nat, ok: bool)
    requires WorldOk(w0)
    ensures Written(w, count, ok) == WriteAll(f, w0, items, 0)
  {
    w, count := w0, 0;
    while count < |items|
      invariant count <= |items| && WorldOk(w) && WriteAll(f, w0, items, 0) == WriteAll(f, w, items, count)
    {
      var m := MetadataWriteOp(f, w, items[count]);
      w, count := m.0, count + 1;
      if !m.1 { return w, count, false; }
    }
    ok := true;
  }

  method InsertRecords(f: Fates, w0: World, items: seq<Item>) returns (w: World, ok: bool)
    requires WorldOk(w0)
    ensures (w, ok) == InsertAll(f, w0, items, 0)
  {
    w := w0;
    var i := 0;
    while i < |items|
      invariant i <= |items| && WorldOk(w) && InsertAll(f, w0, items, 0) == InsertAll(f, w, items, i)
    {
      var m := InsertOp(f, w, items[i].record);
      w := m.0;
      if !m.1 { return w, false; }
      i := i + 1;
    }
    ok := true;
  }

  method CommitTransaction(f: Fates, w0: World, task: string, items: seq<Item>, ops: Ops) returns (r: Result)
    requires WorldOk(w0)
    ensures r == Transaction(f, w0, task, items, ops)
  {
    var w, exists_ := CheckDuplicates(f, w0, items);
    if exists_ != 0 {
      r := RollBack(f, w, task, items, 0, ops, if exists_ > 0 then DuplicateRecord else DuplicateCheckFailed);
      return;
    }
    var count, ok;
    w, count, ok := WriteMetadata(f, w, items);
    if !ok {
      r := RollBack(f, w, task, items, count, ops, MetadataWriteFailed);
      return;
    }
    w, ok := InsertRecords(f, w, items);
    if !ok {
      r := RollBack(f, w, task, items, |items|, ops, DbInsertFailed);
      return;
    }
    r := Closing(f, w, task, items, ops);
  }

  /** `storage_commit_run_once`. */
  method CommitOnce(f: Fates, state: CommitState, w0: World, task: string, items: seq<Item>, ops: Ops) returns (r: Result)
    requires WorldOk(w0)
    ensures r == RunOnce(f, state, w0, task, items, ops)
  {
    if state.attempted { return Result(state, w0, if state.success then 0 else -1); }
    if !InputOk(task, items, ops) { return Result(CommitState(true, false, false, InvalidInput), w0, -1); }
    var b := BeginOp(f, w0);
    if !b.1 { return Result(CommitState(true, false, false, DbBeginFailed), StatusOp(f, b.0, task, Failed).0, -1); }
    r := CommitTransaction(f, b.0, task, items, ops);
  }
}

/** The file table of a channel: allocation of entries and LBAs, file indices and lookup, and what any
    sequence of recordings keeps. */
module Metadata {
  import opened Media

  const MAX_FILES: nat := 128
  const DATA_START_LBA: nat := 1000
  const TASK_CHARS: nat := 11
  const NUL: char := '\0'

  /** The stored task number: 11 characters, padded with NUL. */
  type TaskField = seq<char>

  datatype FileEntry = FileEntry(task: TaskField, index: nat, sizeBytes: nat, startLba: nat, sectors: nat, valid: bool)

  const NO_ENTRY := FileEntry([], 0, 0, 0, 0, false)

  type Table = seq<FileEntry>

  // ---- Task numbers ----

  function Padding(n: nat): (r: seq<char>)
    ensures |r| == n && forall k :: 0 <= k < n ==> r[k] == NUL
  {
    seq(n, _ => NUL)
  }

  /** What recording a task number leaves in the entry. */
  function Stored(task: string): TaskField {
    if |task| >= TASK_CHARS then task[..TASK_CHARS] else task + Padding(TASK_CHARS - |task|)
  }

  /** `task_string`: the characters before the first NUL. */
  function TaskString(field: TaskField): (task: string)
    ensures NUL !in task
  {
    if field == [] || field[0] == NUL then [] else [field[0]] + TaskString(field[1..])
  }

  predicate TaskOk(task: string) {
    |task| <= TASK_CHARS && NUL !in task
  }

  lemma {:induction false} TaskStringPadded(task: string, n: nat)
    requires NUL !in task
    ensures TaskString(task + Padding(n)) == task
    decreases |task|
  {
    if task == [] {
      assert task + Padding(n) == Padding(n);
    } else {
      assert (task + Padding(n))[1..] == task[1..] + Padding(n);
      TaskStringPadded(task[1..], n);
      assert task[0] in task;
    }
  }

  /** A task number that fits is read back as it was stored. */
  lemma StoredRoundTrip(task: string)
    requires TaskOk(task)
    ensures TaskString(Stored(task)) == task
  {
    TaskStringPadded(task, TASK_CHARS - |task|);
    assert |task| == TASK_CHARS ==> task[..TASK_CHARS] == task && task + Padding(0) == task;
  }

  predicate Matches(e: FileEntry, task: string) {
    TaskString(e.task) == task
  }

  // ---- What the scans compute ----

  function End(e: FileEntry): nat {
    e.startLba + e.sectors
  }

  predicate NoWrap(table: Table) {
    forall i :: 0 <= i < |table| && table[i].valid ==> End(table[i]) <= U64_MAX
  }

  /** The first invalid entry of the first `n`; `n` when there is none. */
  function FirstFree(table: Table, n: nat): (slot: nat)
    requires n <= |table|
    ensures slot <= n && (slot < n ==> !table[slot].valid) && forall i :: 0 <= i < slot ==> table[i].valid
  {
    if n == 0 then 0
    else
      var before := FirstFree(table, n - 1);
      if before < n - 1 || !table[n - 1].valid then before else n
  }

  /** The end of the data area: past every valid entry, and no further than needed. */
  function HighEnd(table: Table, n: nat): (lba: nat)
    requires n <= |table|
    ensures lba >= DATA_START_LBA && forall i :: 0 <= i < n && table[i].valid ==> End(table[i]) <= lba
    ensures lba == DATA_START_LBA || exists i :: 0 <= i < n && table[i].valid && End(table[i]) == lba
  {
    if n == 0 then DATA_START_LBA
    else
      var before := HighEnd(table, n - 1);
      if table[n - 1].valid && End(table[n - 1]) > before then End(table[n - 1]) else before
  }

  function CountValid(table: Table, n: nat): (c: nat)
    requires n <= |table|
    ensures c <= n
  {
    if n == 0 then 0 else CountValid(table, n - 1) + (if table[n - 1].valid then 1 else 0)
  }

  /** `range_overlaps`. */
  predicate Overlaps(startA: nat, sectorsA: nat, startB: nat, sectorsB: nat) {
    startA < startB + sectorsB && startB < startA + sectorsA
  }

  predicate RangeFree(table: Table, start: nat, sectors: nat) {
    && start + sectors <= U64_MAX && NoWrap(table)
    && forall i :: 0 <= i < |table| && table[i].valid ==> !Overlaps(start, sectors, table[i].startLba, table[i].sectors)
  }

  predicate IsFile(e: FileEntry, task: string, index: nat) {
    e.valid && e.index == index && Matches(e, task)
  }

  /** `metadata_find_by_task`: the first entry of that name among those from `i` on. */
  function Find(table: Table, task: string, index: nat, i: nat): (slot: nat)
    requires i <= |table|
    ensures i <= slot <= |table| && (slot < |table| ==> IsFile(table[slot], task, index))
    ensures forall j :: i <= j < slot ==> !IsFile(table[j], task, index)
    decreases |table| - i
  {
    if i == |table| || IsFile(table[i], task, index) then i else Find(table, task, index, i + 1)
  }

  /** Whether the task has entries among the first `n`, and their highest index. */
  function HighIndex(table: Table, task: string, n: nat): (r: (bool, nat))
    requires n <= |table|
    ensures r.0 <==> exists i :: 0 <= i < n && table[i].valid && Matches(table[i], task)
    ensures forall i :: 0 <= i < n && table[i].valid && Matches(table[i], task) ==> table[i].index <= r.1
  {
    if n == 0 then (false, 0)
    else
      var before := HighIndex(table, task, n - 1);
      var e := table[n - 1];
      if !e.valid || !Matches(e, task) then before
      else (true, if e.index > before.1 then e.index else before.1)
  }

  datatype Index = NoIndex | Index(value: nat)

  /** `metadata_resolve_file_index`. */
  function Resolve(table: Table, task: string, requested: nat): Index {
    var high := HighIndex(table, task, |table|);
    if requested > U16_MAX then NoIndex
    else if !high.0 || requested > high.1 then Index(requested)
    else if high.1 >= U16_MAX then NoIndex
    else Index(high.1 + 1)
  }

  /** A resolved index is at least the one asked for, fits, and is taken by no file of the task. */
  lemma ResolvedIsFresh(table: Table, task: string, requested: nat)
    requires Resolve(table, task, requested).Index?
    ensures var index := Resolve(table, task, requested).value;
            && requested <= index <= U16_MAX
            && forall i :: 0 <= i < |table| ==> !IsFile(table[i], task, index)
  {
  }

  // ---- The loops that run ----

  /** 64-bit addition wraps. */
  function Wrapped(sum: nat): (r: nat)
    ensures sum <= U64_MAX ==> r == sum
  {
    sum % (U64_MAX + 1)
  }

  method AllocSlotAndLba(table: array<FileEntry>) returns (ok: bool, slot: nat, lba: nat, count: nat)
    ensures ok <==> FirstFree(table[..], table.Length) < table.Length
    ensures ok ==> slot == FirstFree(table[..], table.Length) && count == CountValid(table[..], table.Length)
    ensures ok && NoWrap(table[..]) ==> lba == HighEnd(table[..], table.Length)
  {
    ok, slot, lba, count := false, 0, DATA_START_LBA, 0;
    ghost var t := table[..];
    var i := 0;
    while i < table.Length
      invariant i <= table.Length && t == table[..] && count == CountValid(t, i)
      invariant ok <==> FirstFree(t, i) < i
      invariant ok ==> slot == FirstFree(t, i)
      invariant NoWrap(t) ==> lba == HighEnd(t, i)
    {
      var e := table[i];
      assert NoWrap(t) && e.valid ==> End(t[i]) <= U64_MAX;
      if e.valid {
        count := count + 1;
        var end := Wrapped(e.startLba + e.sectors);
        if end > lba { lba := end; }
      } else if !ok {
        ok, slot := true, i;
      }
      i := i + 1;
    }
  }

  method CheckLbaOverlap(table: array<FileEntry>, start: nat, sectors: nat) returns (ok: bool)
    ensures ok <==> RangeFree(table[..], start, sectors)
  {
    if start + sectors > U64_MAX { return false; }
    var i := 0;
    while i < table.Length
      invariant i <= table.Length
      invariant forall j :: 0 <= j < i && table[j].valid ==>
        End(table[j]) <= U64_MAX && !Overlaps(start, sectors, table[j].startLba, table[j].sectors)
    {
      var e := table[i];
      if e.valid && (e.startLba + e.sectors > U64_MAX || Overlaps(start, sectors, e.startLba, e.sectors)) {
        assert table[..][i] == e;
        return false;
      }
      i := i + 1;
    }
    ok := true;
  }

  method FindByTask(table: array<FileEntry>, task: string, index: nat) returns (slot: nat)
    ensures slot == Find(table[..], task, index, 0)
  {
    slot := 0;
    while slot < table.Length
      invariant slot <= table.Length && Find(table[..], task, index, 0) == Find(table[..], task, index, slot)
    {
      var e := table[slot];
      if e.valid && e.index == index && TaskString(e.task) == task { return; }
      slot := slot + 1;
    }
  }

  method ResolveFileIndex(table: array<FileEntry>, task: string, requested: nat) returns (index: Index)
    ensures index == Resolve(table[..], task, requested)
  {
    if requested > U16_MAX { return NoIndex; }
    var exists_, high, i := false, 0, 0;
    ghost var t := table[..];
    while i < table.Length
      invariant i <= table.Length && t == table[..] && (exists_, high) == HighIndex(t, task, i)
    {
      var e := table[i];
      if e.valid && TaskString(e.task) == task {
        exists_ := true;
        if e.index > high { high := e.index; }
      }
      i := i + 1;
    }
    if !exists_ || requested > high { return Index(requested); }
    if high >= U16_MAX { return NoIndex; }
    index := Index(high + 1);
  }

  // ---- Any sequence of recordings ----

  /** Where the data goes: after everything recorded, or at a given LBA that was checked for overlap. */
  datatype Place = Auto | At(lba: nat)

  datatype Recording = Recording(task: string, requested: nat, place: Place, sectors: nat, sizeBytes: nat)

  function StartOf(table: Table, place: Place): nat {
    match place
    case Auto => HighEnd(table, |table|)
    case At(lba) => lba
  }

  predicate CanRecord(table: Table, r: Recording) {
    && TaskOk(r.task) && r.sectors <= U32_MAX && Resolve(table, r.task, r.requested).Index?
    && FirstFree(table, |table|) < |table|
    && StartOf(table, r.place) + r.sectors <= U64_MAX
    && (r.place.At? ==> RangeFree(table, r.place.lba, r.sectors))
  }

  function EntryOf(table: Table, r: Recording): FileEntry
    requires CanRecord(table, r)
  {
    FileEntry(Stored(r.task), Resolve(table, r.task, r.requested).value, if r.sizeBytes > U32_MAX then U32_MAX else r.sizeBytes,
              StartOf(table, r.place), r.sectors, true)
  }

  /** A recording that cannot be made leaves the table alone. */
  function Recorded(table: Table, r: Recording): (t: Table)
    ensures |t| == |table|
  {
    if CanRecord(table, r) then table[FirstFree(table, |table|) := EntryOf(table, r)] else table
  }

  function AfterAll(table: Table, rs: seq<Recording>): Table
    decreases |rs|
  {
    if rs == [] then table else AfterAll(Recorded(table, rs[0]), rs[1..])
  }

  /** Valid files share no LBA and no name. */
  predicate FilesApart(table: Table) {
    forall i, j :: 0 <= i < j < |table| && table[i].valid && table[j].valid ==>
      && (End(table[i]) <= table[j].startLba || End(table[j]) <= table[i].startLba)
      && !(table[i].index == table[j].index && TaskString(table[i].task) == TaskString(table[j].task))
  }

  predicate TableOk(table: Table) {
    && NoWrap(table) && FilesApart(table)
    && forall i :: 0 <= i < |table| && table[i].valid ==> table[i].index <= U16_MAX
  }

  lemma RecordedKeeps(table: Table, r: Recording)
    requires TableOk(table)
    ensures TableOk(Recorded(table, r))
  {
    if CanRecord(table, r) {
      var slot, e := FirstFree(table, |table|), EntryOf(table, r);
      var t := Recorded(table, r);
      StoredRoundTrip(r.task);
      ResolvedIsFresh(table, r.task, r.requested);
      forall i | 0 <= i < |t| && i != slot && t[i].valid
        ensures End(t[i]) <= e.startLba || End(e) <= t[i].startLba
        ensures !(t[i].index == e.index && TaskString(t[i].task) == TaskString(e.task))
      {
        assert t[i] == table[i];
        assert !IsFile(table[i], r.task, e.index);
      }
    }
  }

  /** Any sequence of recordings keeps the files' LBA ranges disjoint and their names unique. */
  lemma {:induction false} RecordingsKeep(table: Table, rs: seq<Recording>)
    requires TableOk(table)
    ensures TableOk(AfterAll(table, rs)) && |AfterAll(table, rs)| == |table|
    decreases |rs|
  {
    if rs != [] {
      RecordedKeeps(table, rs[0]);
      RecordingsKeep(Recorded(table, rs[0]), rs[1..]);
    }
  }

  function EmptyTable(): (table: Table)
    ensures |table| == MAX_FILES
  {
    seq(MAX_FILES, _ => NO_ENTRY)
  }

  lemma EmptyTableOk()
    ensures TableOk(EmptyTable())
  {
  }

  /** So starting empty: after any sequence of recordings no two files share an LBA or a name. */
  lemma FilesNeverShare(rs: seq<Recording>, i: nat, j: nat, l: nat)
    requires var t := AfterAll(EmptyTable(), rs); i < j < |t| && t[i].valid && t[j].valid
    ensures var t := AfterAll(EmptyTable(), rs);
            && !(t[i].startLba <= l < End(t[i]) && t[j].startLba <= l < End(t[j]))
            && (t[i].index != t[j].index || TaskString(t[i].task) != TaskString(t[j].task))
  {
    EmptyTableOk();
    RecordingsKeep(EmptyTable(), rs);
  }

  /** Lookup after recording yields exactly the new entry, under the index it was given; every earlier file
      is still found where it was. */
  lemma LookupFindsRecorded(table: Table, r: Recording)
    requires TableOk(table) && CanRecord(table, r)
    ensures var t, e, slot := Recorded(table, r), EntryOf(table, r), FirstFree(table, |table|);
            Find(t, r.task, e.index, 0) == slot && t[slot] == e
    ensures forall task: string, index: nat ::
              Find(table, task, index, 0) < |table| ==> Find(Recorded(table, r), task, index, 0) == Find(table, task, index, 0)
  {
    var t, e, slot := Recorded(table, r), EntryOf(table, r), FirstFree(table, |table|);
    StoredRoundTrip(r.task);
    ResolvedIsFresh(table, r.task, r.requested);
    assert IsFile(t[slot], r.task, e.index);
    FindUnique(t, r.task, e.index, slot);
    forall task: string, index: nat | Find(table, task, index, 0) < |table|
      ensures Find(t, task, index, 0) == Find(table, task, index, 0)
    {
      var old_ := Find(table, task, index, 0);
      assert t[old_] == table[old_] && IsFile(t[old_], task, index);
      RecordedKeeps(table, r);
      FoundUnique(t, task, index, old_);
    }
  }

  lemma FindUnique(t: Table, task: string, index: nat, slot: nat)
    requires slot < |t| && IsFile(t[slot], task, index)
    requires forall j :: 0 <= j < slot ==> !IsFile(t[j], task, index)
    ensures Find(t, task, index, 0) == slot
  {
  }

  lemma FoundUnique(t: Table, task: string, index: nat, slot: nat)
    requires TableOk(t) && slot < |t| && IsFile(t[slot], task, index)
    ensures Find(t, task, index, 0) == slot
  {
    var f := Find(t, task, index, 0);
    assert f <= slot;
  }
}

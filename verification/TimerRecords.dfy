/** Timer, due-ledger and workflow records, and the checks the store applies to
    them. Keys stand for object paths: a path is built from validated key fields
    and names exactly one key. Identifiers are opaque ordered values. */
module TimerRecords {
  import opened Basics
  import opened TimerKinds

  type Id = nat
  type Time = int

  datatype RunKey = RunKey(namespace: Id, workflowId: Id, runId: Id)
  datatype TimerKey = TimerKey(run: RunKey, timerId: Id)

  // `payload` is the rest of the message: kind, duration, activity link.
  datatype TimerRecord = TimerRecord(
    schemaOk: bool,
    key: TimerKey,
    status: TimerStatus,
    fireAt: Option<Time>,
    firedAt: Option<Time>,
    payload: int)

  datatype DueEntry = DueEntry(key: TimerKey, workflowKey: RunKey, fireAt: Option<Time>, record: Option<TimerRecord>)

  // An object either decodes or it does not.
  datatype Object<+T> = Garbage | Decoded(value: T)

  datatype WorkflowStatus = UnspecifiedWorkflow | InProgress | CompletedWorkflow | FailedWorkflow
  datatype WorkflowRecord = WorkflowRecord(schemaOk: bool, key: RunKey, status: WorkflowStatus)

  predicate ValidTimer(r: TimerRecord, key: TimerKey) { r.schemaOk && r.key == key }

  predicate ValidWorkflow(w: WorkflowRecord, key: RunKey) { w.schemaOk && w.key == key }

  /** What `putDueEntry` accepts. */
  predicate Storable(r: TimerRecord) {
    && r.schemaOk
    && r.status != UnspecifiedStatus
    && (r.status == Scheduled ==> r.fireAt.Some?)
  }

  /** The ledger entry `putDueEntry` writes for a record. */
  function EntryFor(r: TimerRecord): DueEntry { DueEntry(r.key, r.key.run, r.fireAt, Some(r)) }

  /** `validateDueEntry` at the path of `path`, plus the key check of `getDueEntry`. */
  predicate ValidEntry(e: DueEntry, path: TimerKey) {
    && e.record.Some?
    && e.workflowKey == e.key.run
    && e.key.run.namespace == path.run.namespace
    && ValidTimer(e.record.value, e.key)
    && Storable(e.record.value)
    && e.record.value.fireAt == e.fireAt
    && e.key == path
  }

  /** Everything `putDueEntry` writes reads back as valid, carrying the record it was given. */
  lemma WrittenEntryIsValid(r: TimerRecord)
    ensures Storable(r) ==> ValidEntry(EntryFor(r), r.key) && EntryFor(r).record == Some(r)
  {
  }

  datatype Lookup = Missing | Found(record: TimerRecord) | Corrupt

  datatype Bucket = Bucket(ledger: map<TimerKey, Object<DueEntry>>, points: map<TimerKey, Object<TimerRecord>>)

  predicate EntryReadable(ledger: map<TimerKey, Object<DueEntry>>, k: TimerKey) {
    k in ledger && ledger[k].Decoded? && ValidEntry(ledger[k].value, k)
  }

  function Prepared(ledger: map<TimerKey, Object<DueEntry>>, k: TimerKey): TimerRecord
    requires EntryReadable(ledger, k)
  {
    ledger[k].value.record.value
  }

  /** `getTimerPoint`. */
  function GetPoint(points: map<TimerKey, Object<TimerRecord>>, k: TimerKey): Lookup {
    if k !in points then Missing
    else if points[k].Decoded? && ValidTimer(points[k].value, k) then Found(points[k].value)
    else Corrupt
  }

  /** What a reader of a record sees: a CANCELED ledger record is a tombstone. */
  function Shown(r: TimerRecord): Lookup { if r.status == Canceled then Missing else Found(r) }

  /** `GetTimer`: the ledger overlays the point. */
  function GetTimer(b: Bucket, k: TimerKey): Lookup {
    if k !in b.ledger then GetPoint(b.points, k)
    else if EntryReadable(b.ledger, k) then Shown(Prepared(b.ledger, k))
    else Corrupt
  }

  /** `DeleteTimer`'s tombstone for a readable record, or for a key whose bytes are damaged. */
  function Tombstone(r: TimerRecord): TimerRecord { r.(status := Canceled, firedAt := None) }

  function MinimalTombstone(k: TimerKey): TimerRecord { TimerRecord(true, k, Canceled, None, None, 0) }
}

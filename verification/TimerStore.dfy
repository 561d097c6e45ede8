/** The timer half of `OpenDALStore`, one caller at a time: put, get, delete, list and the
    due scan, over the bucket objects they update in place. */
module TimerStore {
  import opened Basics
  import opened Sorting
  import opened TimerKinds
  import opened TimerRecords

  datatype DueTimer = DueTimer(key: TimerKey, record: TimerRecord, workflow: WorkflowRecord)

  datatype StoreError = InvalidRecord | CorruptRecord | WriteFailed

  /** `ValidateDueTimer`. */
  predicate ValidDueTimer(d: DueTimer, namespace: Option<Id>, now: Time) {
    && ValidTimer(d.record, d.key)
    && ValidWorkflow(d.workflow, d.key.run)
    && (namespace.Some? ==> d.key.run.namespace == namespace.value)
    && d.record.status == Scheduled
    && d.workflow.status == InProgress
    && d.record.fireAt.Some?
    && d.record.fireAt.value <= now
  }

  // ---- Orders used by the two sorts ------------------------------------------------

  predicate LexBefore(a: seq<int>, b: seq<int>)
    requires |a| == |b|
  {
    |a| > 0 && (a[0] < b[0] || (a[0] == b[0] && LexBefore(a[1..], b[1..])))
  }

  lemma {:induction false} LexTransitive(a: seq<int>, b: seq<int>, c: seq<int>)
    requires |a| == |b| == |c|
    ensures LexBefore(a, b) && LexBefore(b, c) ==> LexBefore(a, c)
    ensures !LexBefore(b, a) && !LexBefore(c, b) ==> !LexBefore(c, a)
    ensures !(LexBefore(a, b) && LexBefore(b, a))
    ensures a != b ==> LexBefore(a, b) || LexBefore(b, a)
  {
    if a != [] {
      LexTransitive(a[1..], b[1..], c[1..]);
      assert a == [a[0]] + a[1..] && b == [b[0]] + b[1..];
    }
  }

  function FireTime(r: TimerRecord): Time { if r.fireAt.Some? then r.fireAt.value else 0 }

  /** Fire time first, then the key fields in order. */
  function DueRank(d: DueTimer): seq<int> {
    [FireTime(d.record), d.key.run.namespace, d.key.run.workflowId, d.key.run.runId, d.key.timerId]
  }

  predicate DueBefore(a: DueTimer, b: DueTimer) { LexBefore(DueRank(a), DueRank(b)) }

  predicate DueLeq(a: DueTimer, b: DueTimer) { !DueBefore(b, a) }

  lemma DueLeqIsOrder()
    ensures TotalPreorder(DueLeq)
  {
    forall a: DueTimer, b: DueTimer, c: DueTimer
      ensures (DueLeq(a, b) || DueLeq(b, a)) && (DueLeq(a, b) && DueLeq(b, c) ==> DueLeq(a, c))
    {
      LexTransitive(DueRank(a), DueRank(b), DueRank(c));
    }
  }

  lemma DistinctKeysAreOrdered(a: DueTimer, b: DueTimer)
    requires a.key != b.key && DueLeq(a, b)
    ensures DueBefore(a, b)
  {
    LexTransitive(DueRank(a), DueRank(b), DueRank(a));
  }

  predicate IdLeq(a: TimerRecord, b: TimerRecord) { a.key.timerId <= b.key.timerId }

  // ---- What a scan should leave and report -------------------------------------------

  predicate InScope(namespace: Option<Id>, k: TimerKey) {
    namespace.None? || k.run.namespace == namespace.value
  }

  /** The point is exactly what its ledger entry says it should be. */
  predicate Agreed(b: Bucket, k: TimerKey) {
    EntryReadable(b.ledger, k) &&
    if Prepared(b.ledger, k).status == Canceled then k !in b.points
    else k in b.points && b.points[k] == Decoded(Prepared(b.ledger, k))
  }

  /** Every ledger entry in scope has its point in agreement. */
  ghost predicate Settled(b: Bucket, namespace: Option<Id>) {
    forall k :: k in b.ledger && InScope(namespace, k) ==> Agreed(b, k)
  }

  type Workflows = map<RunKey, Object<WorkflowRecord>>

  predicate WorkflowReadable(ws: Workflows, run: RunKey) {
    run in ws ==> ws[run].Decoded? && ValidWorkflow(ws[run].value, run)
  }

  predicate RunInProgress(ws: Workflows, run: RunKey) {
    run in ws && WorkflowReadable(ws, run) && ws[run].value.status == InProgress
  }

  /** SCHEDULED and due by the ledger. */
  predicate Elapsed(ledger: map<TimerKey, Object<DueEntry>>, k: TimerKey, now: Time) {
    EntryReadable(ledger, k) && Prepared(ledger, k).status == Scheduled && Prepared(ledger, k).fireAt.value <= now
  }

  /** The wake a scan must report for `k`: due, with both copies agreeing, in a live run. */
  predicate WakeDue(b: Bucket, ws: Workflows, now: Time, k: TimerKey) {
    Elapsed(b.ledger, k, now) && Agreed(b, k) && RunInProgress(ws, k.run)
  }

  function Wake(b: Bucket, ws: Workflows, k: TimerKey): DueTimer
    requires EntryReadable(b.ledger, k) && RunInProgress(ws, k.run)
  {
    DueTimer(k, Prepared(b.ledger, k), ws[k.run].value)
  }

  lemma RewrittenEntryIsSame(ledger: map<TimerKey, Object<DueEntry>>, k: TimerKey)
    requires EntryReadable(ledger, k)
    ensures ledger[k := Decoded(EntryFor(Prepared(ledger, k)))] == ledger
  {
  }

  // ---- Listing -----------------------------------------------------------------------

  predicate Matches(status: TimerStatus, r: TimerRecord) { status == UnspecifiedStatus || r.status == status }

  /** A run's listing: what `GetTimer` finds over all its timer IDs, once each, by ID. */
  ghost predicate IsListing(b: Bucket, run: RunKey, status: TimerStatus, records: seq<TimerRecord>) {
    && (forall i, j :: 0 <= i < j < |records| ==> records[i].key.timerId < records[j].key.timerId)
    && (forall r :: r in records <==> r.key.run == run && GetTimer(b, r.key) == Found(r) && Matches(status, r))
  }

  /** The records gathered by ID so far cover exactly the keys already visited. */
  ghost predicate Gathered(b: Bucket, run: RunKey, visited: set<TimerKey>, byId: map<Id, TimerRecord>) {
    && (forall k :: k in visited ==> k.run == run && GetTimer(b, k) != Corrupt)
    && (forall id :: id in byId <==> TimerKey(run, id) in visited && GetTimer(b, TimerKey(run, id)).Found?)
    && (forall id :: id in byId ==> GetTimer(b, TimerKey(run, id)) == Found(byId[id]))
  }

  lemma FoundRecordsCarryTheirKey(b: Bucket, k: TimerKey)
    ensures GetTimer(b, k).Found? ==> GetTimer(b, k).record.key == k
  {
  }

  /** The filter loop over the gathered map and the final sort. */
  method SortedRecords(run: RunKey, byId: map<Id, TimerRecord>, status: TimerStatus) returns (records: seq<TimerRecord>)
    requires forall id :: id in byId ==> byId[id].key == TimerKey(run, id)
    ensures forall i, j :: 0 <= i < j < |records| ==> records[i].key.timerId < records[j].key.timerId
    ensures forall r :: r in records <==> r.key.run == run && r.key.timerId in byId && byId[r.key.timerId] == r && Matches(status, r)
  {
    var gathered: seq<TimerRecord> := [];
    var todo := byId.Keys;
    while todo != {}
      invariant todo <= byId.Keys
      invariant forall r :: r in gathered <==>
        r.key.run == run && r.key.timerId in byId.Keys - todo && byId[r.key.timerId] == r && Matches(status, r)
      invariant NoDuplicates(gathered)
    {
      var id :| id in todo;
      todo := todo - {id};
      if Matches(status, byId[id]) { gathered := gathered + [byId[id]]; }
    }
    records := SortBy(IdLeq, gathered);
    IdLeqIsOrder();
    SortByElements(IdLeq, gathered);
    SortByDistinct(IdLeq, gathered);
    forall i, j | 0 <= i < j < |records| ensures records[i].key.timerId < records[j].key.timerId {
      assert IdLeq(records[i], records[j]) && records[i] in gathered && records[j] in gathered;
    }
  }

  lemma IdLeqIsOrder()
    ensures TotalPreorder(IdLeq)
  {
  }

  class OpenDALStore {
    var ledger: map<TimerKey, Object<DueEntry>>
    var points: map<TimerKey, Object<TimerRecord>>
    var workflows: Workflows
    var quarantine: map<TimerKey, Object<DueEntry>>
    var writes: nat   // write and delete calls made on the bucket, whatever became of them

    function View(): Bucket
      reads this
    {
      Bucket(ledger, points)
    }

    method GetTimer(k: TimerKey) returns (r: Lookup)
      ensures r == TimerRecords.GetTimer(View(), k)
    {
      if k in ledger {
        if ledger[k].Garbage? || !ValidEntry(ledger[k].value, k) { return Corrupt; }
        var record := ledger[k].value.record.value;
        if record.status == Canceled { return Missing; }
        return Found(record);
      }
      r := GetPoint(points, k);
    }

    /** Ledger first, then the point. Either write may fail with or without landing. */
    method PutTimer(record: TimerRecord, ledgerWrite: WriteOutcome, pointWrite: WriteOutcome)
      returns (r: Result<(), StoreError>)
      modifies this
      ensures workflows == old(workflows) && quarantine == old(quarantine)
      ensures !Storable(record) ==> r.Err? && View() == old(View()) && writes == old(writes)
      ensures Storable(record) ==> writes == old(writes) + if ledgerWrite.Acked? then 2 else 1
      ensures Storable(record) ==> (r.Ok? <==> ledgerWrite.Acked? && pointWrite.Acked?)
      ensures Storable(record) ==>
        && ledger == (if ledgerWrite.Landed() then old(ledger)[record.key := Decoded(EntryFor(record))] else old(ledger))
        && points == (if ledgerWrite.Acked? && pointWrite.Landed() then old(points)[record.key := Decoded(record)]
                      else old(points))
      ensures Storable(record) && ledgerWrite.Landed() ==> TimerRecords.GetTimer(View(), record.key) == Shown(record)
      ensures forall k :: k != record.key || !ledgerWrite.Landed() || !Storable(record) ==>
        TimerRecords.GetTimer(View(), k) == old(TimerRecords.GetTimer(View(), k))
    {
      if !Storable(record) { return Err(InvalidRecord); }
      WrittenEntryIsValid(record);
      writes := writes + 1;
      if ledgerWrite.Landed() { ledger := ledger[record.key := Decoded(EntryFor(record))]; }
      if !ledgerWrite.Acked? { return Err(WriteFailed); }
      writes := writes + 1;
      if pointWrite.Landed() { points := points[record.key := Decoded(record)]; }
      if !pointWrite.Acked? { return Err(WriteFailed); }
      return Ok(());
    }

    /** Tombstone first, then the point. */
    method DeleteTimer(k: TimerKey, ledgerWrite: WriteOutcome, pointDelete: WriteOutcome)
      returns (r: Result<bool, StoreError>)
      modifies this
      ensures workflows == old(workflows) && quarantine == old(quarantine)
      ensures r == Ok(true) ==> TimerRecords.GetTimer(View(), k) == Missing && k in ledger && k !in points
      ensures r == Ok(false) ==> View() == old(View()) && writes == old(writes) && TimerRecords.GetTimer(View(), k) == Missing
      ensures r.Err? ==> TimerRecords.GetTimer(View(), k) in {Missing, old(TimerRecords.GetTimer(View(), k))}
      ensures forall j :: j != k ==> TimerRecords.GetTimer(View(), j) == old(TimerRecords.GetTimer(View(), j))
      ensures forall j :: j != k ==> At(ledger, j) == old(At(ledger, j)) && At(points, j) == old(At(points, j))
    {
      var pointExists := k in points;
      if k in ledger && !EntryReadable(ledger, k) { return Err(CorruptRecord); }
      if !pointExists && (k !in ledger || Prepared(ledger, k).status == Canceled) { return Ok(false); }
      var tombstone;
      if k in ledger {
        tombstone := Tombstone(Prepared(ledger, k));
      } else {
        var point := GetPoint(points, k);
        tombstone := if point.Found? then Tombstone(point.record) else MinimalTombstone(k);
      }
      WrittenEntryIsValid(tombstone);
      writes := writes + 1;
      if ledgerWrite.Landed() { ledger := ledger[k := Decoded(EntryFor(tombstone))]; }
      if !ledgerWrite.Acked? { return Err(WriteFailed); }
      writes := writes + 1;
      if pointDelete.Landed() { points := points - {k}; }
      if !pointDelete.Acked? { return Err(WriteFailed); }
      return Ok(true);
    }

    /** Ledger shadows first, then the points they do not cover. */
    method ListTimers(run: RunKey, status: TimerStatus) returns (r: Result<seq<TimerRecord>, StoreError>)
      ensures r.Ok? <==> forall k: TimerKey :: k.run == run ==> TimerRecords.GetTimer(View(), k) != Corrupt
      ensures r.Ok? ==> IsListing(View(), run, status, r.value)
    {
      var shadows: set<TimerKey>, byId: map<Id, TimerRecord>, clean: bool := ListLedger(run);
      if !clean { return Err(CorruptRecord); }
      var todo := set k | k in points && k.run == run;
      var visited := shadows;
      while todo != {}
        invariant todo <= points.Keys && (forall k :: k in todo ==> k.run == run)
        invariant forall k :: k in points && k.run == run ==> k in todo || k in visited
        invariant shadows <= visited && visited <= shadows + points.Keys
        invariant Gathered(View(), run, visited, byId)
      {
        var k :| k in todo;
        todo := todo - {k};
        if k !in shadows {
          if points[k].Garbage? || !ValidTimer(points[k].value, k) {
            assert TimerRecords.GetTimer(View(), k) == Corrupt;
            return Err(CorruptRecord);
          }
          byId := byId[k.timerId := points[k].value];
          assert TimerRecords.GetTimer(View(), k) == Found(points[k].value);
        }
        visited := visited + {k};
      }
      forall k: TimerKey | k.run == run ensures TimerRecords.GetTimer(View(), k) != Corrupt {
        assert k in visited || (k !in ledger && k !in points);
      }
      forall id | id in byId ensures byId[id].key == TimerKey(run, id) {
        FoundRecordsCarryTheirKey(View(), TimerKey(run, id));
      }
      var records := SortedRecords(run, byId, status);
      ListingFromGathered(View(), run, status, visited, byId, records);
      return Ok(records);
    }

    /** The due-ledger half of the listing: every entry of the run must be readable. */
    method ListLedger(run: RunKey) returns (shadows: set<TimerKey>, byId: map<Id, TimerRecord>, clean: bool)
      ensures !clean ==> exists k: TimerKey :: k.run == run && TimerRecords.GetTimer(View(), k) == Corrupt
      ensures clean ==> shadows == (set k | k in ledger && k.run == run) && Gathered(View(), run, shadows, byId)
    {
      shadows, byId, clean := {}, map[], true;
      var todo := set k | k in ledger && k.run == run;
      while todo != {}
        invariant todo + shadows == (set k | k in ledger && k.run == run) && todo !! shadows
        invariant Gathered(View(), run, shadows, byId)
      {
        var k :| k in todo;
        todo := todo - {k};
        if !EntryReadable(ledger, k) {
          clean := false;
          assert TimerRecords.GetTimer(View(), k) == Corrupt;
          return;
        }
        if Prepared(ledger, k).status != Canceled { byId := byId[k.timerId := Prepared(ledger, k)]; }
        shadows := shadows + {k};
        assert TimerRecords.GetTimer(View(), k) == Shown(Prepared(ledger, k));
      }
    }

    /** One ledger entry of a scan: finish a delete, repair the point, or report the wake. */
    method ScanEntry(k: TimerKey, now: Time, faultless: bool) returns (r: Result<Option<DueTimer>, StoreError>)
      requires k in ledger
      modifies this
      ensures ledger == old(ledger) && workflows == old(workflows)
      ensures forall j :: j != k ==> At(points, j) == old(At(points, j))
      ensures !EntryReadable(ledger, k) ==> r.Err? && quarantine == old(quarantine)[k := ledger[k]] && points == old(points)
      ensures old(Agreed(View(), k)) ==> points == old(points) && quarantine == old(quarantine) && writes == old(writes)
      ensures r.Ok? ==> Agreed(View(), k)
      ensures r.Ok? ==> (r.value.Some? <==> WakeDue(old(View()), workflows, now, k))
      ensures r.Ok? && r.value.Some? ==> r.value.value == Wake(View(), workflows, k)
      ensures faultless && EntryReadable(ledger, k) && (Elapsed(ledger, k, now) ==> WorkflowReadable(workflows, k.run)) ==> r.Ok?
    {
      if !EntryReadable(ledger, k) {
        quarantine, writes := quarantine[k := ledger[k]], writes + 1;
        return Err(CorruptRecord);
      }
      var prepared := Prepared(ledger, k);
      var point := GetPoint(points, k);
      if prepared.status == Canceled {
        if !point.Missing? {
          var deletion: WriteOutcome := *;
          if faultless { deletion := Acked; }
          writes := writes + 1;
          if deletion.Landed() { points := points - {k}; }
          if !deletion.Acked? { return Err(WriteFailed); }
        }
        return Ok(None);
      }
      if point != Found(prepared) {
        var ledgerWrite: WriteOutcome, pointWrite: WriteOutcome := *, *;
        if faultless { ledgerWrite, pointWrite := Acked, Acked; }
        RewrittenEntryIsSame(ledger, k);
        var put := PutTimer(prepared, ledgerWrite, pointWrite);
        return if put.Ok? then Ok(None) else Err(WriteFailed);
      }
      if prepared.status != Scheduled || prepared.fireAt.value > now { return Ok(None); }
      if !WorkflowReadable(workflows, k.run) { return Err(CorruptRecord); }
      if !RunInProgress(workflows, k.run) { return Ok(None); }
      return Ok(Some(DueTimer(k, prepared, workflows[k.run].value)));
    }

    /** The scan: repairs are never visible to `GetTimer`, even when it stops on an error; when
        it succeeds every point agrees with its ledger entry, and it has reported, in strict
        order and once each, exactly the wakes whose two copies already agreed. */
    method DueTimers(namespace: Option<Id>, now: Time, faultless: bool) returns (r: Result<seq<DueTimer>, StoreError>)
      modifies this
      ensures ledger == old(ledger) && workflows == old(workflows)
      ensures forall k :: TimerRecords.GetTimer(View(), k) == old(TimerRecords.GetTimer(View(), k))
      ensures old(Settled(View(), namespace)) ==> points == old(points) && quarantine == old(quarantine) && writes == old(writes)
      ensures r.Ok? ==> Settled(View(), namespace)
      ensures r.Ok? ==> forall d :: d in r.value <==>
        InScope(namespace, d.key) && WakeDue(old(View()), workflows, now, d.key) && d == Wake(View(), workflows, d.key)
      ensures r.Ok? ==> forall i, j :: 0 <= i < j < |r.value| ==> DueBefore(r.value[i], r.value[j])
      ensures r.Ok? ==> forall d :: d in r.value ==> ValidDueTimer(d, namespace, now)
      ensures faultless && ScanReadable(ledger, workflows, namespace, now) ==> r.Ok?
    {
      var due: seq<DueTimer> := [];
      var todo := set k | k in ledger && InScope(namespace, k);
      ghost var before, scope, done: set<TimerKey> := View(), todo, {};
      while todo != {}
        invariant ledger == old(ledger) && workflows == old(workflows)
        invariant todo + done == scope && todo !! done
        invariant Scanned(before, View(), workflows, now, done, due)
        invariant old(Settled(View(), namespace)) ==>
                    points == old(points) && quarantine == old(quarantine) && writes == old(writes)
      {
        var k :| k in todo;
        ghost var b := View();
        var entry := ScanEntry(k, now, faultless);
        ScanInvisible(before, View(), done + {k});
        if entry.Err? { return Err(entry.error); }
        ScannedStep(before, b, View(), workflows, now, done, due, k, entry.value);
        todo, done := todo - {k}, done + {k};
        due := due + FoundWake(entry.value);
      }
      ScanInvisible(before, View(), done);
      var sorted := SortDue(due);
      return Ok(sorted);
    }
  }

  /** Recovery from any crash state: whatever the points hold, missing, stale or corrupt, one
      scan settles them and the next reports every elapsed wake of every live run. */
  method RecoverAndReport(store: OpenDALStore, namespace: Option<Id>, now: Time) returns (due: seq<DueTimer>)
    requires ScanReadable(store.ledger, store.workflows, namespace, now)
    modifies store
    ensures store.ledger == old(store.ledger) && store.workflows == old(store.workflows)
    ensures Settled(store.View(), namespace)
    ensures forall d :: d in due <==>
      && InScope(namespace, d.key) && Elapsed(store.ledger, d.key, now) && RunInProgress(store.workflows, d.key.run)
      && d == Wake(store.View(), store.workflows, d.key)
    ensures forall i, j :: 0 <= i < j < |due| ==> DueBefore(due[i], due[j])
  {
    var first := store.DueTimers(namespace, now, true);
    var second := store.DueTimers(namespace, now, true);
    due := second.value;
    SettledReportsEveryWake(store.View(), store.workflows, namespace, now);
  }

  /** Once settled, the two-copies rule suppresses no wake. */
  lemma SettledReportsEveryWake(b: Bucket, ws: Workflows, namespace: Option<Id>, now: Time)
    requires Settled(b, namespace)
    ensures forall k :: InScope(namespace, k) ==>
      (WakeDue(b, ws, now, k) <==> Elapsed(b.ledger, k, now) && RunInProgress(ws, k.run))
  {
  }

  function FoundWake(found: Option<DueTimer>): seq<DueTimer> { if found.Some? then [found.value] else [] }

  /** Progress of a scan over the entries in `done`. */
  ghost predicate Scanned(before: Bucket, b: Bucket, ws: Workflows, now: Time, done: set<TimerKey>, due: seq<DueTimer>) {
    && b.ledger == before.ledger
    && (forall k :: k !in done ==> At(b.points, k) == At(before.points, k))
    && (forall k :: k in done ==> k in b.ledger && Agreed(b, k))
    && (forall d :: d in due <==> d.key in done && WakeDue(before, ws, now, d.key) && d == Wake(before, ws, d.key))
    && NoDuplicates(due)
  }

  lemma ScannedStep(before: Bucket, b: Bucket, c: Bucket, ws: Workflows, now: Time, done: set<TimerKey>,
                    due: seq<DueTimer>, k: TimerKey, found: Option<DueTimer>)
    requires Scanned(before, b, ws, now, done, due) && k in b.ledger && k !in done
    requires c.ledger == b.ledger && (forall j :: j != k ==> At(c.points, j) == At(b.points, j))
    requires Agreed(c, k) && (found.Some? <==> WakeDue(b, ws, now, k)) && (found.Some? ==> found.value == Wake(c, ws, k))
    ensures Scanned(before, c, ws, now, done + {k}, due + FoundWake(found))
  {
    forall j | j in done ensures Agreed(c, j) { WakeDueDepends(b, c, ws, now, j); }
    WakeDueDepends(before, b, ws, now, k);
    forall d ensures d in due + FoundWake(found) <==>
      d.key in done + {k} && WakeDue(before, ws, now, d.key) && d == Wake(before, ws, d.key)
    {
    }
  }

  /** Touching points that a ledger entry covers changes nothing a reader can see. */
  lemma ScanInvisible(before: Bucket, b: Bucket, touched: set<TimerKey>)
    requires b.ledger == before.ledger && touched <= b.ledger.Keys
    requires forall k :: k !in touched ==> At(b.points, k) == At(before.points, k)
    ensures forall k :: GetTimer(b, k) == GetTimer(before, k)
  {
    forall k ensures GetTimer(b, k) == GetTimer(before, k) {
      if k !in b.ledger { assert At(b.points, k) == At(before.points, k); }
    }
  }

  /** Every entry in scope decodes, and so does the parent of every elapsed one. */
  ghost predicate ScanReadable(ledger: map<TimerKey, Object<DueEntry>>, ws: Workflows, namespace: Option<Id>, now: Time) {
    forall k :: k in ledger && InScope(namespace, k) ==>
      EntryReadable(ledger, k) && (Elapsed(ledger, k, now) ==> WorkflowReadable(ws, k.run))
  }

  lemma WakeDueDepends(b: Bucket, c: Bucket, ws: Workflows, now: Time, k: TimerKey)
    requires b.ledger == c.ledger && At(b.points, k) == At(c.points, k)
    ensures WakeDue(b, ws, now, k) == WakeDue(c, ws, now, k) && Agreed(b, k) == Agreed(c, k)
  {
  }

  /** The final sort of a scan. */
  method SortDue(due: seq<DueTimer>) returns (sorted: seq<DueTimer>)
    requires NoDuplicates(due) && forall a, b :: a in due && b in due && a.key == b.key ==> a == b
    ensures forall d :: d in sorted <==> d in due
    ensures forall i, j :: 0 <= i < j < |sorted| ==> DueBefore(sorted[i], sorted[j])
  {
    sorted := SortBy(DueLeq, due);
    DueLeqIsOrder();
    SortByElements(DueLeq, due);
    SortByDistinct(DueLeq, due);
    forall i, j | 0 <= i < j < |sorted| ensures DueBefore(sorted[i], sorted[j]) {
      assert DueLeq(sorted[i], sorted[j]) && sorted[i] != sorted[j] && sorted[i] in due && sorted[j] in due;
      DistinctKeysAreOrdered(sorted[i], sorted[j]);
    }
  }

  lemma ListingFromGathered(b: Bucket, run: RunKey, status: TimerStatus, visited: set<TimerKey>,
                            byId: map<Id, TimerRecord>, records: seq<TimerRecord>)
    requires Gathered(b, run, visited, byId)
    requires forall k: TimerKey :: k.run == run && (k in b.ledger || k in b.points) ==> k in visited
    requires forall i, j :: 0 <= i < j < |records| ==> records[i].key.timerId < records[j].key.timerId
    requires forall r :: r in records <==> r.key.run == run && r.key.timerId in byId && byId[r.key.timerId] == r && Matches(status, r)
    ensures IsListing(b, run, status, records)
  {
    forall r ensures r in records <==> r.key.run == run && GetTimer(b, r.key) == Found(r) && Matches(status, r) {
      if r.key.run == run {
        assert r.key == TimerKey(run, r.key.timerId);
        assert GetTimer(b, r.key).Found? ==> r.key in visited;
      }
    }
  }
}

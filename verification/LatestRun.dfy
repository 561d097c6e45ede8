/** The latest-run pointer of one workflow ID: derived state that every `PutWorkflow` updates
    after the authoritative record, with a compare-then-write under the store's mutex.

    Writers interleave between the two steps, also writers of one run. A writer may stop after
    the record write, and either write may fail, or land behind an error. A reader reads the
    pointer and then the record it names. */
module LatestRun {
  import opened Basics

  type Run = nat
  type Writer = nat
  type Time = int

  datatype Status = Unspecified | InProgress | Completed | Failed

  datatype Record = Record(status: Status, createdAt: Option<Time>, completedAt: Option<Time>, runOrderTime: Option<Time>)

  /** What pointers are compared by, first component first. */
  datatype Pair = Pair(runOrder: Time, recordTime: Time)

  datatype Pointer = Pointer(run: Run, status: Status, pair: Pair)

  predicate Eligible(s: Status) { !s.Unspecified? }

  function PersistedTime(r: Record): Option<Time> {
    if (r.status.Completed? || r.status.Failed?) && r.completedAt.Some? then r.completedAt else r.createdAt
  }

  predicate Dated(r: Record) { PersistedTime(r).Some? }

  /** An undated record is ordered by the clock. */
  function PairOf(r: Record, now: Time): Pair {
    var t := if Dated(r) then PersistedTime(r).value else now;
    Pair(if r.runOrderTime.Some? then r.runOrderTime.value else t, t)
  }

  predicate LexLe(a: Pair, b: Pair) {
    a.runOrder < b.runOrder || (a.runOrder == b.runOrder && a.recordTime <= b.recordTime)
  }

  predicate ShouldReplace(existing: Pair, incoming: Pair) {
    if incoming.runOrder != existing.runOrder then incoming.runOrder > existing.runOrder
    else !(incoming.recordTime < existing.recordTime)
  }

  /** One record write that landed, numbered in the order of landing. */
  datatype Put = Put(run: Run, record: Record, pair: Pair, stamp: nat)

  function PointerOf(p: Put): Pointer { Pointer(p.run, p.record.status, p.pair) }

  /** `records` and `pointer` are stored. `pending` is what live writers still have to compare;
      `written` and `compared` are the history of record writes and of the pointer comparisons that
      took effect: lost to the stored pointer, or won with the pointer write landing. */
  datatype State = State(records: map<Run, Put>, pointer: Option<Pointer>, pending: map<Writer, Put>,
                         written: seq<Put>, compared: seq<Put>)

  function Init(): State { State(map[], None, map[], [], []) }

  datatype Event =
    | WriteRecord(writer: Writer, run: Run, record: Record, now: Time, outcome: WriteOutcome)
    | UpdatePointer(writer: Writer, outcome: WriteOutcome)
    | Stop(writer: Writer)
    | DeleteWorkflow(run: Run)

  function WriteStep(s: State, w: Writer, run: Run, r: Record, now: Time, outcome: WriteOutcome): State {
    if w in s.pending || outcome.Lost? then s
    else
      var put := Put(run, r, PairOf(r, now), |s.written|);
      var t := s.(records := s.records[run := put], written := s.written + [put]);
      if !Eligible(r.status) || outcome.Ambiguous? then t else t.(pending := s.pending[w := put])
  }

  function PointerStep(s: State, w: Writer, outcome: WriteOutcome): State {
    if w !in s.pending then s
    else
      var put := s.pending[w];
      var t := s.(pending := s.pending - {w});
      if s.pointer.Some? && !ShouldReplace(s.pointer.value.pair, put.pair) then t.(compared := s.compared + [put])
      else if outcome.Lost? then t
      else t.(pointer := Some(PointerOf(put)), compared := s.compared + [put])
  }

  function Next(s: State, e: Event): State {
    match e
    case WriteRecord(w, run, r, now, outcome) => WriteStep(s, w, run, r, now, outcome)
    case UpdatePointer(w, outcome) => PointerStep(s, w, outcome)
    case Stop(w) => s.(pending := s.pending - {w})
    case DeleteWorkflow(run) => s.(records := s.records - {run})
  }

  function After(es: seq<Event>): State {
    if es == [] then Init() else Next(After(es[..|es| - 1]), es[|es| - 1])
  }

  /** `ValidateLatestWorkflowRunReference`: an undated record is compared by status alone. */
  predicate Matches(p: Pointer, r: Record) {
    p.status == r.status && (Dated(r) ==> p.pair == PairOf(r, 0))
  }

  /** `GetLatestWorkflowRun`: the pointer read first, and the record it names read later. */
  function TwoReads(pointer: Option<Pointer>, later: State): Option<Pointer> {
    if pointer.Some? && pointer.value.run in later.records && Matches(pointer.value, later.records[pointer.value.run].record)
    then pointer else None
  }

  /** What a reader finds whose two reads meet no write in between. */
  function GetLatestWorkflowRun(s: State): Option<Pointer> { TwoReads(s.pointer, s) }

  // ---- The pointer is the last maximum ------------------------------------------------------

  /** Position `i` holds the lexicographic maximum, and the last one. */
  ghost predicate LastMaximum(compared: seq<Put>, i: nat) {
    i < |compared| && forall j :: 0 <= j < |compared| ==>
      LexLe(compared[j].pair, compared[i].pair) && (j > i ==> compared[j].pair != compared[i].pair)
  }

  ghost predicate PointsAtMaximum(pointer: Option<Pointer>, compared: seq<Put>) {
    if pointer.None? then compared == []
    else exists i: nat :: LastMaximum(compared, i) && pointer.value == PointerOf(compared[i])
  }

  lemma MaximumStep(s: State, e: Event)
    requires PointsAtMaximum(s.pointer, s.compared)
    ensures PointsAtMaximum(Next(s, e).pointer, Next(s, e).compared)
  {
    if e.UpdatePointer? && e.writer in s.pending {
      var put := s.pending[e.writer];
      var more := s.compared + [put];
      if s.pointer.Some? && !ShouldReplace(s.pointer.value.pair, put.pair) {
        var i: nat :| LastMaximum(s.compared, i) && s.pointer.value == PointerOf(s.compared[i]);
        assert LastMaximum(more, i);
      } else if !e.outcome.Lost? {
        if s.pointer.Some? { var i: nat :| LastMaximum(s.compared, i) && s.pointer.value == PointerOf(s.compared[i]); }
        assert LastMaximum(more, |s.compared|);
      }
    }
  }

  /** Whatever writers overlap, stop or fail, the pointer is the last of the puts with the
      lexicographically greatest (run_order_time, record_time) whose comparison took effect. */
  lemma {:induction false} PointerIsLexicographicMaximum(es: seq<Event>)
    ensures PointsAtMaximum(After(es).pointer, After(es).compared)
  {
    if es != [] {
      PointerIsLexicographicMaximum(es[..|es| - 1]);
      MaximumStep(After(es[..|es| - 1]), es[|es| - 1]);
    }
  }

  // ---- The history behind the stored state -----------------------------------------------------

  predicate Dates(e: Event) { e.WriteRecord? ==> Dated(e.record) }

  ghost predicate DatedRun(es: seq<Event>) { forall e :: e in es ==> Dates(e) }

  predicate Known(written: seq<Put>, p: Put) {
    p.stamp < |written| && written[p.stamp] == p && Dated(p.record) && p.pair == PairOf(p.record, 0)
  }

  predicate Comparable(written: seq<Put>, p: Put) { Known(written, p) && Eligible(p.record.status) }

  /** No later write of the run. */
  predicate Latest(written: seq<Put>, p: Put) { forall j :: p.stamp < j < |written| ==> written[j].run != p.run }

  ghost predicate PendingKnown(written: seq<Put>, pending: map<Writer, Put>) {
    forall w :: w in pending ==> Comparable(written, pending[w])
  }

  ghost predicate ComparedKnown(written: seq<Put>, compared: seq<Put>) {
    forall p :: p in compared ==> Comparable(written, p)
  }

  ghost predicate RecordsLatest(written: seq<Put>, records: map<Run, Put>) {
    forall run :: run in records ==> records[run].run == run && Known(written, records[run]) && Latest(written, records[run])
  }

  /** Every put is one of the writes, and a stored record is the latest write of its run. */
  ghost predicate Inv(s: State) {
    && PointsAtMaximum(s.pointer, s.compared) && PendingKnown(s.written, s.pending)
    && ComparedKnown(s.written, s.compared) && RecordsLatest(s.written, s.records)
  }

  lemma WrittenGrows(written: seq<Put>, put: Put, p: Put)
    requires Known(written, p)
    ensures Known(written + [put], p)
    ensures Latest(written, p) && put.run != p.run ==> Latest(written + [put], p)
  {
  }

  lemma InvWrite(s: State, w: Writer, run: Run, r: Record, now: Time, outcome: WriteOutcome)
    requires Inv(s) && Dated(r)
    ensures Inv(WriteStep(s, w, run, r, now, outcome))
  {
    var t, put := WriteStep(s, w, run, r, now, outcome), Put(run, r, PairOf(r, now), |s.written|);
    if t != s {
      forall p | p in s.compared ensures Comparable(t.written, p) { WrittenGrows(s.written, put, p); }
      forall v | v in t.pending ensures Comparable(t.written, t.pending[v]) {
        if v in s.pending { WrittenGrows(s.written, put, s.pending[v]); }
      }
      forall x | x in t.records
        ensures t.records[x].run == x && Known(t.written, t.records[x]) && Latest(t.written, t.records[x])
      {
        if x != run { WrittenGrows(s.written, put, s.records[x]); }
      }
    }
  }

  lemma InvPointer(s: State, w: Writer, outcome: WriteOutcome)
    requires Inv(s)
    ensures Inv(PointerStep(s, w, outcome))
  {
    MaximumStep(s, UpdatePointer(w, outcome));
    var t := PointerStep(s, w, outcome);
    forall p | p in t.compared ensures Comparable(t.written, p) {
      assert p in s.compared || (w in s.pending && p == s.pending[w]);
    }
  }

  lemma InvStep(s: State, e: Event)
    requires Inv(s) && Dates(e)
    ensures Inv(Next(s, e))
  {
    match e
    case WriteRecord(w, run, r, now, outcome) => InvWrite(s, w, run, r, now, outcome);
    case UpdatePointer(w, outcome) => InvPointer(s, w, outcome);
    case Stop(_) =>
    case DeleteWorkflow(_) =>
  }

  lemma {:induction false} InvRun(es: seq<Event>)
    requires DatedRun(es)
    ensures Inv(After(es))
  {
    if es != [] {
      InvRun(es[..|es| - 1]);
      assert es[|es| - 1] in es;
      InvStep(After(es[..|es| - 1]), es[|es| - 1]);
    }
  }

  ghost predicate InFlight(s: State, run: Run) { exists w :: w in s.pending && s.pending[w].run == run }

  /** The stored record has been compared, and no writer of the run is under way. */
  ghost predicate CaughtUp(s: State, run: Run) {
    run in s.records && s.records[run] in s.compared && !InFlight(s, run)
  }

  /** No writer starts while another writer of the same run is under way. */
  ghost predicate OneWriterRun(es: seq<Event>) {
    forall n :: 0 <= n < |es| && es[n].WriteRecord? ==> !InFlight(After(es[..n]), es[n].run)
  }

  lemma OneWriterPrefix(es: seq<Event>)
    requires es != [] && OneWriterRun(es)
    ensures OneWriterRun(es[..|es| - 1])
    ensures es[|es| - 1].WriteRecord? ==> !InFlight(After(es[..|es| - 1]), es[|es| - 1].run)
  {
    var front := es[..|es| - 1];
    forall n | 0 <= n < |front| && front[n].WriteRecord? ensures !InFlight(After(front[..n]), front[n].run) {
      assert front[..n] == es[..n] && front[n] == es[n];
    }
  }

  ghost predicate PendingLatest(written: seq<Put>, pending: map<Writer, Put>) {
    && (forall w :: w in pending ==> Latest(written, pending[w]))
    && (forall w, v :: w in pending && v in pending && pending[w].run == pending[v].run ==> w == v)
  }

  ghost predicate PendingLast(pending: map<Writer, Put>, compared: seq<Put>) {
    forall w, p :: w in pending && p in compared && p.run == pending[w].run ==> p.stamp < pending[w].stamp
  }

  ghost predicate ComparedInOrder(compared: seq<Put>) {
    forall i, j :: 0 <= i < j < |compared| && compared[i].run == compared[j].run ==> compared[i].stamp < compared[j].stamp
  }

  /** With one writer per run, a put under way is its run's latest write and not yet compared, and
      the puts of one run are compared in the order in which they were written. */
  ghost predicate InOrder(s: State) {
    PendingLatest(s.written, s.pending) && PendingLast(s.pending, s.compared) && ComparedInOrder(s.compared)
  }

  lemma InOrderWrite(s: State, w: Writer, run: Run, r: Record, now: Time, outcome: WriteOutcome)
    requires Inv(s) && InOrder(s) && !InFlight(s, run)
    ensures InOrder(WriteStep(s, w, run, r, now, outcome))
  {
    var t, put := WriteStep(s, w, run, r, now, outcome), Put(run, r, PairOf(r, now), |s.written|);
    if t != s {
      forall v | v in s.pending ensures s.pending[v].run != run && Latest(t.written, s.pending[v]) {
        WrittenGrows(s.written, put, s.pending[v]);
      }
      forall p | p in s.compared ensures p.stamp < put.stamp { assert Comparable(s.written, p); }
    }
  }

  lemma InOrderPointer(s: State, w: Writer, outcome: WriteOutcome)
    requires InOrder(s)
    ensures InOrder(PointerStep(s, w, outcome))
  {
    if w in s.pending {
      var put, t := s.pending[w], PointerStep(s, w, outcome);
      forall v, p | v in t.pending && p in t.compared && p.run == t.pending[v].run ensures p.stamp < t.pending[v].stamp {
        assert p in s.compared || p == put;
      }
      assert forall i :: 0 <= i < |s.compared| ==> s.compared[i] in s.compared;
    }
  }

  lemma InOrderStep(s: State, e: Event)
    requires Inv(s) && InOrder(s) && (e.WriteRecord? ==> !InFlight(s, e.run))
    ensures InOrder(Next(s, e))
  {
    match e
    case WriteRecord(w, run, r, now, outcome) => InOrderWrite(s, w, run, r, now, outcome);
    case UpdatePointer(w, outcome) => InOrderPointer(s, w, outcome);
    case Stop(_) =>
    case DeleteWorkflow(_) =>
  }

  lemma {:induction false} InOrderRun(es: seq<Event>)
    requires DatedRun(es) && OneWriterRun(es)
    ensures Inv(After(es)) && InOrder(After(es))
  {
    if es != [] {
      var front, last := es[..|es| - 1], es[|es| - 1];
      OneWriterPrefix(es);
      InOrderRun(front);
      assert last in es;
      InvStep(After(front), last);
      InOrderStep(After(front), last);
    }
  }

  // ---- When a reader finds the latest run ---------------------------------------------------------

  /** No earlier comparison of the run was later than its stored record. */
  ghost predicate NotGoneBack(s: State, run: Run) {
    run in s.records && forall p :: p in s.compared && p.run == run ==> LexLe(p.pair, s.records[run].pair)
  }

  ghost predicate NamedRunCaughtUp(s: State) { s.pointer.Some? && CaughtUp(s, s.pointer.value.run) }

  /** With one writer per run, a reader finds the run that is pointed at exactly when that run has
      not gone back: its stored pair is the greatest it ever had compared. */
  lemma FoundExactlyWhenNotGoneBack(es: seq<Event>)
    requires DatedRun(es) && OneWriterRun(es) && NamedRunCaughtUp(After(es))
    ensures GetLatestWorkflowRun(After(es)) == After(es).pointer <==> NotGoneBack(After(es), After(es).pointer.value.run)
  {
    InOrderRun(es);
    var s := After(es);
    var run := s.pointer.value.run;
    var stored := s.records[run];
    var i: nat :| LastMaximum(s.compared, i) && s.pointer.value == PointerOf(s.compared[i]);
    var k :| 0 <= k < |s.compared| && s.compared[k] == stored;
    assert s.compared[i] in s.compared && LexLe(stored.pair, s.compared[i].pair);
    forall p | p in s.compared ensures LexLe(p.pair, s.compared[i].pair) { }
    if NotGoneBack(s, run) {
      assert stored.pair == s.compared[i].pair && k <= i;
      assert s.compared[i].stamp <= stored.stamp;
    }
  }

  lemma Snoc(es: seq<Event>, e: Event)
    ensures After(es + [e]) == Next(After(es), e)
  {
    assert (es + [e])[..|es + [e]| - 1] == es;
  }

  function PutAt(run: Run, r: Record, stamp: nat): Put { Put(run, r, PairOf(r, 0), stamp) }

  /** One undisturbed put into an empty bucket. */
  lemma FirstPut(w: Writer, run: Run, r: Record) returns (es: seq<Event>)
    requires Eligible(r.status)
    ensures es == [WriteRecord(w, run, r, 0, Acked), UpdatePointer(w, Acked)]
    ensures var put := PutAt(run, r, 0);
            After(es) == State(map[run := put], Some(PointerOf(put)), map[], [put], [put])
  {
    var e0, e1 := WriteRecord(w, run, r, 0, Acked), UpdatePointer(w, Acked);
    Snoc([], e0);
    Snoc([] + [e0], e1);
    es := [] + [e0] + [e1];
  }

  /** Every run that goes back hides itself: whatever the two records, if the second is the earlier
      one, both puts complete and no reader finds any run. */
  lemma GoingBackHidesTheRun(w: Writer, run: Run, a: Record, b: Record) returns (es: seq<Event>)
    requires Dated(a) && Dated(b) && Eligible(a.status) && Eligible(b.status) && !LexLe(PairOf(a, 0), PairOf(b, 0))
    ensures DatedRun(es) && OneWriterRun(es) && NamedRunCaughtUp(After(es)) && GetLatestWorkflowRun(After(es)) == None
  {
    var first := FirstPut(w, run, a);
    var e2, e3 := WriteRecord(w, run, b, 0, Acked), UpdatePointer(w, Acked);
    Snoc(first, e2);
    Snoc(first + [e2], e3);
    es := first + [e2] + [e3];
    var pa, pb := PutAt(run, a, 0), PutAt(run, b, 1);
    assert After(es) == State(map[run := pb], Some(PointerOf(pa)), map[], [pa, pb], [pa, pb]);
    assert pb in [pa, pb];
    assert es[..0] == [] && es[..2] == first;
  }

  /** Two writers of one run that overlap hide it although nothing went back: both records have the
      same pair, the one stored last is compared first, and the pointer keeps the other's status. */
  lemma OverlappingWritersHideTheRun(run: Run, a: Record, b: Record) returns (es: seq<Event>)
    requires Dated(a) && Dated(b) && Eligible(a.status) && Eligible(b.status)
    requires PairOf(a, 0) == PairOf(b, 0) && a.status != b.status
    ensures DatedRun(es) && NamedRunCaughtUp(After(es)) && NotGoneBack(After(es), After(es).pointer.value.run)
    ensures GetLatestWorkflowRun(After(es)) == None
  {
    var e0, e1 := WriteRecord(0, run, a, 0, Acked), WriteRecord(1, run, b, 0, Acked);
    var e2, e3 := UpdatePointer(1, Acked), UpdatePointer(0, Acked);
    Snoc([], e0);
    Snoc([] + [e0], e1);
    Snoc([] + [e0] + [e1], e2);
    Snoc([] + [e0] + [e1] + [e2], e3);
    es := [] + [e0] + [e1] + [e2] + [e3];
    var pa, pb := PutAt(run, a, 0), PutAt(run, b, 1);
    assert After([] + [e0] + [e1]) == State(map[run := pb], None, map[0 := pa, 1 := pb], [pa, pb], []);
    assert After(es) == State(map[run := pb], Some(PointerOf(pa)), map[], [pa, pb], [pb, pa]);
    assert pb in [pb, pa];
  }

  /** So "not gone back" decides what a reader finds exactly when writers of one run never overlap. */
  lemma NotGoingBackSufficesExactly(overlaps: bool)
    ensures (forall es | DatedRun(es) && (overlaps || OneWriterRun(es)) && NamedRunCaughtUp(After(es))
                         && NotGoneBack(After(es), After(es).pointer.value.run) ::
               GetLatestWorkflowRun(After(es)).Some?)
            <==> !overlaps
  {
    if overlaps {
      var a, b := Record(InProgress, Some(1), None, None), Record(Failed, Some(1), None, None);
      var es := OverlappingWritersHideTheRun(0, a, b);
    } else {
      forall es | DatedRun(es) && OneWriterRun(es) && NamedRunCaughtUp(After(es))
                  && NotGoneBack(After(es), After(es).pointer.value.run)
        ensures GetLatestWorkflowRun(After(es)).Some?
      {
        FoundExactlyWhenNotGoneBack(es);
      }
    }
  }

  // ---- Runs whose own pair never goes back ------------------------------------------------

  /** The writer's side of the promise: eligible statuses, nothing deleted, no run going back. */
  ghost predicate Forward(s: State, e: Event) {
    match e
    case WriteRecord(_, run, r, _, _) =>
      Eligible(r.status) && Dated(r) && (run in s.records ==> LexLe(s.records[run].pair, PairOf(r, 0)))
    case DeleteWorkflow(_) => false
    case _ => true
  }

  ghost predicate ForwardRun(es: seq<Event>) {
    forall n :: 0 <= n < |es| ==> Forward(After(es[..n]), es[n])
  }

  lemma ForwardPrefix(es: seq<Event>)
    requires es != [] && ForwardRun(es)
    ensures ForwardRun(es[..|es| - 1]) && Forward(After(es[..|es| - 1]), es[|es| - 1])
  {
    var front := es[..|es| - 1];
    forall n | 0 <= n < |front| ensures Forward(After(front[..n]), front[n]) {
      assert front[..n] == es[..n] && front[n] == es[n];
    }
  }

  ghost predicate Behind(s: State, p: Put) { p.run in s.records && LexLe(p.pair, s.records[p.run].pair) }

  ghost predicate Ahead(s: State) {
    && (forall p :: p in s.compared ==> Behind(s, p))
    && (forall w :: w in s.pending ==> Behind(s, s.pending[w]))
  }

  lemma {:induction false} AheadRun(es: seq<Event>)
    requires ForwardRun(es)
    ensures Inv(After(es)) && Ahead(After(es)) && DatedRun(es)
  {
    if es != [] {
      var front, last := es[..|es| - 1], es[|es| - 1];
      ForwardPrefix(es);
      AheadRun(front);
      assert es == front + [last];
      InvStep(After(front), last);
      AheadStep(After(front), last);
    }
  }

  lemma AheadStep(s: State, e: Event)
    requires Inv(s) && Ahead(s) && Forward(s, e)
    ensures Ahead(Next(s, e))
  {
    match e
    case WriteRecord(w, run, r, now, outcome) => AheadWrite(s, w, run, r, now, outcome);
    case UpdatePointer(w, outcome) =>
      var t := PointerStep(s, w, outcome);
      forall p | p in t.compared ensures Behind(t, p) { assert p in s.compared || (w in s.pending && p == s.pending[w]); }
    case Stop(_) =>
  }

  lemma AheadWrite(s: State, w: Writer, run: Run, r: Record, now: Time, outcome: WriteOutcome)
    requires Inv(s) && Ahead(s) && Dated(r) && (run in s.records ==> LexLe(s.records[run].pair, PairOf(r, 0)))
    ensures Ahead(WriteStep(s, w, run, r, now, outcome))
  {
    var t := WriteStep(s, w, run, r, now, outcome);
    forall p | Behind(s, p) ensures Behind(t, p) { }
    forall p | p in t.compared ensures Behind(t, p) { assert Behind(s, p); }
    forall v | v in t.pending ensures Behind(t, t.pending[v]) {
      if v in s.pending { assert Behind(s, s.pending[v]); }
    }
  }

  /** For such writers, one per run, once every run is caught up the reader finds the pointer, it
      matches its authoritative record, and no stored run is later. */
  lemma LatestRunIsFound(es: seq<Event>)
    requires ForwardRun(es) && OneWriterRun(es) && After(es).records != map[]
    requires forall run :: run in After(es).records ==> CaughtUp(After(es), run)
    ensures var s := After(es);
            && GetLatestWorkflowRun(s).Some?
            && var p := GetLatestWorkflowRun(s).value;
               && p.run in s.records && p.pair == s.records[p.run].pair
               && forall run :: run in s.records ==> LexLe(s.records[run].pair, p.pair)
  {
    AheadRun(es);
    var s := After(es);
    var first :| first in s.records;
    assert CaughtUp(s, first) && s.pointer.Some?;
    var i: nat :| LastMaximum(s.compared, i) && s.pointer.value == PointerOf(s.compared[i]);
    var run := s.pointer.value.run;
    assert s.compared[i] in s.compared && Behind(s, s.compared[i]);
    forall p | p in s.compared && p.run == run ensures LexLe(p.pair, s.records[run].pair) { assert Behind(s, p); }
    FoundExactlyWhenNotGoneBack(es);
    forall other | other in s.records ensures LexLe(s.records[other].pair, s.pointer.value.pair) {
      assert s.records[other] in s.compared;
    }
  }

  // ---- The reader's two reads ----------------------------------------------------------------

  /** At every cut, whatever happens between its two reads, what a reader gets matches the record
      it read, and is no earlier than any stored put compared by the time of its first read. */
  lemma ReaderSeesMatchingPointer(es: seq<Event>, more: seq<Event>, run: Run)
    requires DatedRun(es + more) && TwoReads(After(es).pointer, After(es + more)).Some?
    ensures var s, t := After(es), After(es + more);
            var p := TwoReads(s.pointer, t).value;
            && p.run in t.records && p.status == t.records[p.run].record.status && p.pair == t.records[p.run].pair
            && (run in s.records && s.records[run] in s.compared ==> LexLe(s.records[run].pair, p.pair))
  {
    assert forall e :: e in es ==> e in es + more;
    InvRun(es);
    InvRun(es + more);
  }

  /** A run changes its status only together with its pair. */
  ghost predicate Steady(s: State, e: Event) {
    e.WriteRecord? && e.run in s.records && s.records[e.run].pair == PairOf(e.record, 0) ==>
      s.records[e.run].record.status == e.record.status
  }

  ghost predicate SteadyRun(es: seq<Event>) {
    forall n :: 0 <= n < |es| ==> Steady(After(es[..n]), es[n])
  }

  lemma SteadyPrefix(es: seq<Event>)
    requires es != [] && SteadyRun(es)
    ensures SteadyRun(es[..|es| - 1]) && Steady(After(es[..|es| - 1]), es[|es| - 1])
  {
    var front := es[..|es| - 1];
    forall n | 0 <= n < |front| ensures Steady(After(front[..n]), front[n]) {
      assert front[..n] == es[..n] && front[n] == es[n];
    }
  }

  /** From one state to another the run's stored record only moves on, and keeps its status while
      its pair stays. */
  ghost predicate MovesOn(s: State, t: State, run: Run) {
    && run in s.records && run in t.records && LexLe(s.records[run].pair, t.records[run].pair)
    && (s.records[run].pair == t.records[run].pair ==> s.records[run].record.status == t.records[run].record.status)
  }

  lemma MovesOnStep(s: State, e: Event, run: Run)
    requires Forward(s, e) && Steady(s, e) && run in s.records
    ensures MovesOn(s, Next(s, e), run)
  {
    if e.UpdatePointer? { assert Next(s, e).records == s.records; }
  }

  lemma {:induction false} RecordsMoveOn(es: seq<Event>, more: seq<Event>, run: Run)
    requires ForwardRun(es + more) && SteadyRun(es + more) && run in After(es).records
    ensures MovesOn(After(es), After(es + more), run)
    decreases |more|
  {
    if more == [] {
      assert es + more == es;
    } else {
      var all, init := es + more, more[..|more| - 1];
      assert all[..|all| - 1] == es + init;
      ForwardPrefix(all);
      SteadyPrefix(all);
      RecordsMoveOn(es, init, run);
      MovesOnStep(After(es + init), all[|all| - 1], run);
    }
  }

  /** A pointer that two reads return was the current answer at some moment between them. */
  ghost predicate WasCurrent(es: seq<Event>, more: seq<Event>) {
    exists m :: 0 <= m <= |more| && GetLatestWorkflowRun(After(es + more[..m])) == After(es).pointer
  }

  lemma SteadyReaderIsCurrent(es: seq<Event>, more: seq<Event>)
    requires ForwardRun(es + more) && SteadyRun(es + more) && TwoReads(After(es).pointer, After(es + more)).Some?
    ensures GetLatestWorkflowRun(After(es)) == After(es).pointer
  {
    ForwardTake(es, more);
    AheadRun(es);
    AheadRun(es + more);
    var s := After(es);
    var i: nat :| LastMaximum(s.compared, i) && s.pointer.value == PointerOf(s.compared[i]);
    assert s.compared[i] in s.compared && Behind(s, s.compared[i]);
    RecordsMoveOn(es, more, s.pointer.value.run);
  }

  lemma ForwardTake(es: seq<Event>, more: seq<Event>)
    requires ForwardRun(es + more)
    ensures ForwardRun(es)
  {
    forall n | 0 <= n < |es| ensures Forward(After(es[..n]), es[n]) {
      assert (es + more)[..n] == es[..n] && (es + more)[n] == es[n];
    }
  }

  /** A run that changes its status and back without moving its pair fools a reader whose reads
      straddle the change: it returns a pointer that was current at no moment in between. */
  lemma FlippingStatusFoolsTheReader(run: Run, a: Record, b: Record) returns (es: seq<Event>, more: seq<Event>)
    requires Dated(a) && Dated(b) && Eligible(a.status) && Eligible(b.status)
    requires PairOf(a, 0) == PairOf(b, 0) && a.status != b.status
    ensures ForwardRun(es + more) && TwoReads(After(es).pointer, After(es + more)).Some? && !WasCurrent(es, more)
  {
    var first := FirstPut(0, run, a);
    var e2, e3, e4 := WriteRecord(0, run, b, 0, Acked), UpdatePointer(0, Acked), WriteRecord(0, run, a, 0, Acked);
    es, more := first + [e2], [e3, e4];
    Snoc(first, e2);
    Snoc(es, e3);
    Snoc(es + [e3], e4);
    var pa, pb, pc := PutAt(run, a, 0), PutAt(run, b, 1), PutAt(run, a, 2);
    var s0 := State(map[run := pa], Some(PointerOf(pa)), map[], [pa], [pa]);
    var s1 := State(map[run := pb], Some(PointerOf(pa)), map[0 := pb], [pa, pb], [pa]);
    var s2 := State(map[run := pb], Some(PointerOf(pb)), map[], [pa, pb], [pa, pb]);
    var s3 := State(map[run := pc], Some(PointerOf(pb)), map[0 := pc], [pa, pb, pc], [pa, pb]);
    assert After(first) == s0 && After(es) == s1 && After(es + [e3]) == s2 && After(es + [e3] + [e4]) == s3;
    assert more[..0] == [] && more[..1] == [e3] && more[..2] == [e3, e4];
    assert es + [] == es && es + [e3, e4] == es + [e3] + [e4] == es + more;
    FoolingRunIsForward(run, a, b, es + more, s0, s2);
  }

  lemma FoolingRunIsForward(run: Run, a: Record, b: Record, es: seq<Event>, s0: State, s2: State)
    requires Dated(a) && Dated(b) && Eligible(a.status) && Eligible(b.status) && PairOf(a, 0) == PairOf(b, 0)
    requires |es| == 5 && es[0] == WriteRecord(0, run, a, 0, Acked) && es[2] == WriteRecord(0, run, b, 0, Acked)
    requires es[4] == WriteRecord(0, run, a, 0, Acked) && es[1].UpdatePointer? && es[3].UpdatePointer?
    requires After(es[..2]) == s0 && After(es[..4]) == s2
    requires s0.records == map[run := PutAt(run, a, 0)] && s2.records == map[run := PutAt(run, b, 1)]
    ensures ForwardRun(es)
  {
    assert es[..0] == [];
    forall n | 0 <= n < |es| ensures Forward(After(es[..n]), es[n]) {
      assert n == 0 || n == 1 || n == 2 || n == 3 || n == 4;
    }
  }

  /** Over all writers that never go back, a pointer a reader returns was current between its two
      reads exactly when no run changes its status without its pair. */
  lemma TwoReadsAreCurrentExactly(flips: bool)
    ensures (forall es, more | ForwardRun(es + more) && (flips || SteadyRun(es + more))
                               && TwoReads(After(es).pointer, After(es + more)).Some? :: WasCurrent(es, more))
            <==> !flips
  {
    if flips {
      var a, b := Record(InProgress, Some(1), None, None), Record(Failed, Some(1), None, None);
      var es, more := FlippingStatusFoolsTheReader(0, a, b);
    } else {
      forall es, more | ForwardRun(es + more) && SteadyRun(es + more)
                        && TwoReads(After(es).pointer, After(es + more)).Some?
        ensures WasCurrent(es, more)
      {
        SteadyReaderIsCurrent(es, more);
        assert more[..0] == [] && es + [] == es;
      }
    }
  }
}

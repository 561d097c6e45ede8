/** Many callers at once on the two-object timer store.

    `PutTimer` is a ledger write then a point write; `DeleteTimer` reads, writes a
    tombstone, then deletes the point; `GetTimer` reads the ledger and, only if
    that is absent, the point; the scanner reads an entry, reads the point, and
    repairs. Every read and write is its own step, in any interleaving, and a
    thread may stop after any of them (a crash, or a write that reports an error
    whether or not it landed). */
module TimerProtocol {
  import opened Basics
  import opened TimerKinds
  import opened TimerRecords

  type Tid = nat

  datatype Pc =
    | Idle
    | PutLedger(record: TimerRecord, repair: bool)
    | PutPoint(record: TimerRecord)
    | DeleteSawPoint(key: TimerKey, pointExists: bool)
    | DeleteReadPoint(key: TimerKey)
    | DeleteTombstone(record: TimerRecord)
    | DeletePoint(key: TimerKey)
    | ScanReadPoint(record: TimerRecord)
    | ScanDelete(key: TimerKey)

  datatype Action =
    | StartPut(record: TimerRecord)
    | StartDelete(key: TimerKey)
    | StartScan(key: TimerKey)
    | Advance
    | Stop

  datatype State = State(bucket: Bucket, threads: map<Tid, Pc>)

  datatype Event = Event(tid: Tid, action: Action)

  function PcOf(s: State, tid: Tid): Pc { if tid in s.threads then s.threads[tid] else Idle }

  function WithLedger(b: Bucket, r: TimerRecord): Bucket { b.(ledger := b.ledger[r.key := Decoded(EntryFor(r))]) }
  function WithPoint(b: Bucket, r: TimerRecord): Bucket { b.(points := b.points[r.key := Decoded(r)]) }
  function WithoutPoint(b: Bucket, k: TimerKey): Bucket { b.(points := b.points - {k}) }

  /** The first read of an operation, taken when it starts. */
  function Started(b: Bucket, a: Action): Pc {
    match a
    case StartPut(r) => if Storable(r) then PutLedger(r, false) else Idle
    case StartDelete(k) => DeleteSawPoint(k, k in b.points)
    case StartScan(k) => if EntryReadable(b.ledger, k) then ScanReadPoint(Prepared(b.ledger, k)) else Idle
    case _ => Idle
  }

  function AfterLedgerRead(b: Bucket, k: TimerKey, pointExists: bool): Pc {
    if k in b.ledger && !EntryReadable(b.ledger, k) then Idle
    else if k in b.ledger then
      if !pointExists && Prepared(b.ledger, k).status == Canceled then Idle
      else DeleteTombstone(Tombstone(Prepared(b.ledger, k)))
    else if !pointExists then Idle
    else DeleteReadPoint(k)
  }

  function AfterPointRead(b: Bucket, k: TimerKey): Pc {
    match GetPoint(b.points, k)
    case Missing => DeletePoint(k)
    case Corrupt => DeleteTombstone(MinimalTombstone(k))
    case Found(r) => DeleteTombstone(Tombstone(r))
  }

  function AfterScanRead(b: Bucket, r: TimerRecord): Pc {
    if r.status == Canceled then (if r.key in b.points then ScanDelete(r.key) else Idle)
    else if GetPoint(b.points, r.key) == Found(r) then Idle
    else PutLedger(r, true)
  }

  function Stepped(b: Bucket, pc: Pc): (Bucket, Pc) {
    match pc
    case Idle => (b, Idle)
    case PutLedger(r, _) => (WithLedger(b, r), PutPoint(r))
    case PutPoint(r) => (WithPoint(b, r), Idle)
    case DeleteSawPoint(k, pointExists) => (b, AfterLedgerRead(b, k, pointExists))
    case DeleteReadPoint(k) => (b, AfterPointRead(b, k))
    case DeleteTombstone(r) => (WithLedger(b, r), DeletePoint(r.key))
    case DeletePoint(k) => (WithoutPoint(b, k), Idle)
    case ScanReadPoint(r) => (b, AfterScanRead(b, r))
    case ScanDelete(k) => (WithoutPoint(b, k), Idle)
  }

  function Next(s: State, e: Event): State {
    var pc := PcOf(s, e.tid);
    match e.action
    case Advance =>
      var (b, pc') := Stepped(s.bucket, pc);
      State(b, s.threads[e.tid := pc'])
    case Stop => s.(threads := s.threads[e.tid := Idle])
    case _ => if pc.Idle? then s.(threads := s.threads[e.tid := Started(s.bucket, e.action)]) else s
  }

  function Run(s: State, es: seq<Event>): State {
    if es == [] then s else Next(Run(s, es[..|es| - 1]), es[|es| - 1])
  }

  /** The record a step publishes to the ledger, if it does. */
  function Published(s: State, e: Event): Option<TimerRecord> {
    var pc := PcOf(s, e.tid);
    if e.action.Advance? && (pc.PutLedger? || pc.DeleteTombstone?) then Some(pc.record) else None
  }

  // ---- The invariant of all interleavings --------------------------------------

  /** What a thread in the middle of an operation may rely on. */
  predicate PcSound(b: Bucket, pc: Pc) {
    match pc
    case Idle => true
    case PutLedger(r, repair) => Storable(r) && (repair ==> r.status != Canceled)
    case PutPoint(r) => Storable(r) && r.key in b.ledger
    case DeleteSawPoint(k, pointExists) => pointExists ==> k in b.points || k in b.ledger
    case DeleteReadPoint(k) => k in b.points || k in b.ledger
    case DeleteTombstone(r) => Storable(r) && r.status == Canceled
    case DeletePoint(k) => k in b.ledger
    case ScanReadPoint(r) => Storable(r) && r.key in b.ledger
    case ScanDelete(k) => k in b.ledger
  }

  ghost predicate Inv(s: State) { forall tid :: tid in s.threads ==> PcSound(s.bucket, s.threads[tid]) }

  /** Ledger entries never go away, and a point goes away only behind one. */
  predicate Grows(b: Bucket, c: Bucket) {
    b.ledger.Keys <= c.ledger.Keys && b.points.Keys <= c.points.Keys + c.ledger.Keys
  }

  lemma PcSoundStable(b: Bucket, c: Bucket, pc: Pc)
    requires PcSound(b, pc) && Grows(b, c)
    ensures PcSound(c, pc)
  {
  }

  lemma StepSound(b: Bucket, pc: Pc)
    requires PcSound(b, pc)
    ensures var (c, pc') := Stepped(b, pc); Grows(b, c) && PcSound(c, pc')
  {
  }

  lemma InvStep(s: State, e: Event)
    requires Inv(s)
    ensures Inv(Next(s, e))
    ensures Grows(s.bucket, Next(s, e).bucket)
  {
    var t := Next(s, e);
    var pc := PcOf(s, e.tid);
    StepSound(s.bucket, pc);
    forall tid | tid in t.threads ensures PcSound(t.bucket, t.threads[tid]) {
      if tid != e.tid { PcSoundStable(s.bucket, t.bucket, s.threads[tid]); }
    }
  }

  lemma {:induction false} InvRun(s: State, es: seq<Event>)
    requires Inv(s)
    ensures Inv(Run(s, es))
  {
    if es != [] {
      InvRun(s, es[..|es| - 1]);
      InvStep(Run(s, es[..|es| - 1]), es[|es| - 1]);
    }
  }

  // ---- Refinement: one atomic map, changed only by ledger writes -----------------

  /** A step that publishes nothing is invisible to `GetTimer` at every key; one that publishes
      a record makes exactly that record visible at its key and touches no other. */
  lemma StepRefinesAtomicMap(s: State, e: Event, k: TimerKey)
    requires Inv(s)
    ensures var published := Published(s, e);
            GetTimer(Next(s, e).bucket, k) ==
              if published.Some? && published.value.key == k then Shown(published.value) else GetTimer(s.bucket, k)
  {
    var pc := PcOf(s, e.tid);
    if Published(s, e).Some? { WrittenEntryIsValid(pc.record); }
  }

  /** The atomic map's view of a run: the last record published at a key, if any. */
  function LastPublished(s: State, es: seq<Event>, k: TimerKey): Option<TimerRecord> {
    if es == [] then None
    else
      var p := Published(Run(s, es[..|es| - 1]), es[|es| - 1]);
      if p.Some? && p.value.key == k then p else LastPublished(s, es[..|es| - 1], k)
  }

  /** Over every interleaving and every crash, `GetTimer` shows the last published record, or
      what it showed at the start: the ledger writes are the linearization points. */
  lemma {:induction false} GetTimerShowsLastPublished(s: State, es: seq<Event>, k: TimerKey)
    requires Inv(s)
    ensures GetTimer(Run(s, es).bucket, k) ==
              match LastPublished(s, es, k) case Some(r) => Shown(r) case None => GetTimer(s.bucket, k)
  {
    if es != [] {
      var init := es[..|es| - 1];
      GetTimerShowsLastPublished(s, init, k);
      InvRun(s, init);
      StepRefinesAtomicMap(Run(s, init), es[|es| - 1], k);
    }
  }

  /** No write that started before a delete can bring the timer back after its tombstone. */
  lemma LateWritesNeverResurrect(s: State, es: seq<Event>, k: TimerKey)
    requires Inv(s) && GetTimer(s.bucket, k) == Missing
    requires LastPublished(s, es, k).None?
    ensures GetTimer(Run(s, es).bucket, k) == Missing
  {
    GetTimerShowsLastPublished(s, es, k);
  }

  // ---- The two reads of GetTimer ---------------------------------------------------

  /** `k` showed `v` at some moment of the run. */
  ghost predicate Seen(s: State, es: seq<Event>, k: TimerKey, v: Lookup) {
    exists m :: 0 <= m <= |es| && GetTimer(Run(s, es[..m]).bucket, k) == v
  }

  lemma SeenNow(s: State, es: seq<Event>, k: TimerKey)
    ensures Seen(s, es, k, GetTimer(Run(s, es).bucket, k))
  {
    assert es[..|es|] == es;
  }

  lemma SeenLater(s: State, es: seq<Event>, e: Event, k: TimerKey, v: Lookup)
    requires Seen(s, es, k, v)
    ensures Seen(s, es + [e], k, v)
  {
    var m :| 0 <= m <= |es| && GetTimer(Run(s, es[..m]).bucket, k) == v;
    assert (es + [e])[..m] == es[..m];
  }

  predicate WritesLive(pc: Pc) { pc.PutLedger? || pc.PutPoint? ==> pc.record.status != Canceled }

  predicate NoCanceledPut(e: Event) { e.action.StartPut? ==> e.action.record.status != Canceled }

  /** The only `PutTimer` calls in the run store live records. */
  ghost predicate LivePuts(s: State, es: seq<Event>) {
    && (forall tid :: tid in s.threads ==> WritesLive(s.threads[tid]))
    && (forall i :: 0 <= i < |es| ==> NoCanceledPut(es[i]))
  }

  /** Whatever a thread is about to do to the point at `k` was once the visible value. */
  ghost predicate PcSeen(s: State, es: seq<Event>, k: TimerKey, pc: Pc) {
    match pc
    case PutPoint(r) => r.key == k ==> Seen(s, es, k, Found(r))
    case DeletePoint(d) => d == k ==> Seen(s, es, k, Missing)
    case ScanReadPoint(r) => r.key == k ==> Seen(s, es, k, Shown(r))
    case ScanDelete(d) => d == k ==> Seen(s, es, k, Missing)
    case _ => true
  }

  ghost predicate HistoryInv(s: State, es: seq<Event>, k: TimerKey) {
    var t := Run(s, es);
    && Seen(s, es, k, GetPoint(t.bucket.points, k))
    && (forall tid :: tid in t.threads ==> WritesLive(t.threads[tid]) && PcSeen(s, es, k, t.threads[tid]))
  }

  lemma PcSeenLater(s: State, es: seq<Event>, e: Event, k: TimerKey, pc: Pc)
    requires PcSeen(s, es, k, pc)
    ensures PcSeen(s, es + [e], k, pc)
  {
    if pc.PutPoint? && pc.record.key == k { SeenLater(s, es, e, k, Found(pc.record)); }
    if (pc.DeletePoint? || pc.ScanDelete?) && pc.key == k { SeenLater(s, es, e, k, Missing); }
    if pc.ScanReadPoint? && pc.record.key == k { SeenLater(s, es, e, k, Shown(pc.record)); }
  }

  lemma RunSnoc(s: State, es: seq<Event>, e: Event)
    ensures Run(s, es + [e]) == Next(Run(s, es), e)
  {
    assert (es + [e])[..|es + [e]| - 1] == es;
  }

  /** The acting thread's next program counter keeps the history facts. */
  lemma ActorSeen(s: State, es: seq<Event>, e: Event, k: TimerKey)
    requires Inv(s) && HistoryInv(s, es, k) && NoCanceledPut(e)
    ensures var pc := PcOf(Next(Run(s, es), e), e.tid);
            WritesLive(pc) && PcSeen(s, es + [e], k, pc)
  {
    var t := Run(s, es);
    var u := Next(t, e);
    InvRun(s, es);
    var pc := PcOf(t, e.tid);
    SeenNow(s, es, k);
    SeenLater(s, es, e, k, GetTimer(t.bucket, k));
    SeenLater(s, es, e, k, GetPoint(t.bucket.points, k));
    RunSnoc(s, es, e);
    SeenNow(s, es + [e], k);
    StepRefinesAtomicMap(t, e, k);
    PcSeenLater(s, es, e, k, pc);
  }

  lemma PointSeen(s: State, es: seq<Event>, e: Event, k: TimerKey)
    requires Inv(s) && HistoryInv(s, es, k)
    ensures Seen(s, es + [e], k, GetPoint(Next(Run(s, es), e).bucket.points, k))
  {
    var t := Run(s, es);
    var pc := PcOf(t, e.tid);
    InvRun(s, es);
    SeenLater(s, es, e, k, GetPoint(t.bucket.points, k));
    PcSeenLater(s, es, e, k, pc);
  }

  lemma {:induction false} HistoryRun(s: State, es: seq<Event>, k: TimerKey)
    requires Inv(s) && LivePuts(s, es) && k !in s.bucket.ledger
    ensures HistoryInv(s, es, k)
  {
    if es == [] {
      SeenNow(s, [], k);
    } else {
      var init, e := es[..|es| - 1], es[|es| - 1];
      assert forall i :: 0 <= i < |init| ==> init[i] == es[i];
      HistoryRun(s, init, k);
      assert es == init + [e] && NoCanceledPut(e);
      RunSnoc(s, init, e);
      ActorSeen(s, init, e, k);
      PointSeen(s, init, e, k);
      OthersSeen(s, init, e, k);
    }
  }

  lemma OthersSeen(s: State, es: seq<Event>, e: Event, k: TimerKey)
    requires HistoryInv(s, es, k)
    ensures var t := Next(Run(s, es), e);
            forall tid :: tid in t.threads && tid != e.tid ==>
              WritesLive(t.threads[tid]) && PcSeen(s, es + [e], k, t.threads[tid])
  {
    var t := Next(Run(s, es), e);
    forall tid | tid in t.threads && tid != e.tid
      ensures WritesLive(t.threads[tid]) && PcSeen(s, es + [e], k, t.threads[tid])
    {
      PcSeenLater(s, es, e, k, Run(s, es).threads[tid]);
    }
  }

  /** `GetTimer` reads the ledger absent at the start of `es` and the point at its end. */
  ghost predicate GetTimerLinearizable(s: State, es: seq<Event>, k: TimerKey) {
    Seen(s, es, k, GetPoint(Run(s, es).bucket.points, k))
  }

  /** Any CANCELED record stored through `PutTimer` shows up in the second read only. */
  lemma CanceledPutBreaksGetTimer(r: TimerRecord) returns (s: State, es: seq<Event>)
    requires Storable(r) && r.status == Canceled
    ensures Inv(s) && r.key !in s.bucket.ledger && !GetTimerLinearizable(s, es, r.key)
  {
    s := State(Bucket(map[], map[]), map[]);
    var put, go := Event(0, StartPut(r)), Event(0, Advance);
    es := [] + [put] + [go] + [go];
    RunSnoc(s, [], put);
    RunSnoc(s, [put], go);
    RunSnoc(s, [put, go], go);
    assert es == [put, go] + [go];
    forall m | 0 <= m <= |es| ensures GetTimer(Run(s, es[..m]).bucket, r.key) == Missing {
      GetTimerShowsLastPublished(s, es[..m], r.key);
      OnlyOnePutPublished(s, es[..m], r);
    }
  }

  lemma {:induction false} OnlyOnePutPublished(s: State, es: seq<Event>, r: TimerRecord)
    requires s.threads == map[]
    requires forall i :: 0 <= i < |es| ==> es[i].action.Advance? || es[i].action == StartPut(r)
    ensures LastPublished(s, es, r.key).Some? ==> LastPublished(s, es, r.key).value == r
    ensures forall tid :: tid in Run(s, es).threads ==>
      var pc := Run(s, es).threads[tid];
      pc.Idle? || ((pc.PutLedger? || pc.PutPoint?) && pc.record == r)
  {
    if es != [] {
      var init := es[..|es| - 1];
      assert forall i :: 0 <= i < |init| ==> init[i] == es[i];
      OnlyOnePutPublished(s, init, r);
    }
  }

  /** Over all interleavings, crashes and concurrent scans, every `GetTimer` returns a value
      that was current at some moment of its call, exactly when nobody stores a CANCELED
      record through `PutTimer`. */
  lemma GetTimerIsLinearizable(allowCanceledPuts: bool)
    ensures (forall s, es, k | Inv(s) && k !in s.bucket.ledger && (allowCanceledPuts || LivePuts(s, es)) ::
              GetTimerLinearizable(s, es, k))
            <==> !allowCanceledPuts
  {
    if allowCanceledPuts {
      var r := MinimalTombstone(TimerKey(RunKey(0, 0, 0), 0));
      var s, es := CanceledPutBreaksGetTimer(r);
    } else {
      forall s, es, k | Inv(s) && k !in s.bucket.ledger && LivePuts(s, es) ensures GetTimerLinearizable(s, es, k) {
        HistoryRun(s, es, k);
      }
    }
  }

  // ---- The scanner's repair ----------------------------------------------------------

  /** Thread `tid` started scanning the entry of `k` in state `s` and has only advanced since. */
  ghost predicate Scanning(s: State, es: seq<Event>, tid: Tid, k: TimerKey) {
    && es != [] && PcOf(s, tid).Idle? && EntryReadable(s.bucket.ledger, k) && es[0] == Event(tid, StartScan(k))
    && forall i :: 1 <= i < |es| && es[i].tid == tid ==> es[i].action.Advance?
  }

  /** Whatever the others do meanwhile, the scan holds on to the record it read. */
  lemma {:induction false} ScanKeepsWhatItRead(s: State, es: seq<Event>, tid: Tid, k: TimerKey)
    requires Scanning(s, es, tid, k)
    ensures var r := Prepared(s.bucket.ledger, k);
            PcOf(Run(s, es), tid) in {ScanReadPoint(r), PutLedger(r, true), PutPoint(r), ScanDelete(k), Idle}
  {
    var init := es[..|es| - 1];
    if init == [] {
      assert Run(s, init) == s;
    } else {
      ScanKeepsWhatItRead(s, init, tid, k);
    }
  }

  /** A scan's rewrite of the ledger is invisible exactly when, since the scan read the entry,
      nobody published the timer anew, or the last to do so published the same record. */
  lemma RepairIsInvisibleExactly(s: State, es: seq<Event>, tid: Tid, k: TimerKey)
    requires Inv(s) && Scanning(s, es, tid, k) && PcOf(Run(s, es), tid).PutLedger?
    ensures var t, u := Run(s, es), Run(s, es + [Event(tid, Advance)]);
            (forall j :: GetTimer(u.bucket, j) == GetTimer(t.bucket, j)) <==>
            (LastPublished(s, es, k).None? || LastPublished(s, es, k).value == Prepared(s.bucket.ledger, k))
  {
    var t, e, r := Run(s, es), Event(tid, Advance), Prepared(s.bucket.ledger, k);
    InvRun(s, es);
    ScanKeepsWhatItRead(s, es, tid, k);
    RunSnoc(s, es, e);
    assert PcSound(t.bucket, PcOf(t, tid));
    GetTimerShowsLastPublished(s, es, k);
    forall j ensures GetTimer(Next(t, e).bucket, j) == if j == k then Found(r) else GetTimer(t.bucket, j) {
      StepRefinesAtomicMap(t, e, j);
    }
  }

  /** A delete that overlaps the scan is undone: the scan read the entry before the tombstone
      and rewrites it after. */
  lemma OverlappingScanResurrects(r: TimerRecord) returns (s: State, deleted: seq<Event>, e: Event)
    requires Storable(r) && r.status == Scheduled
    ensures Inv(s) && GetTimer(Run(s, deleted).bucket, r.key) == Missing
    ensures GetTimer(Next(Run(s, deleted), e).bucket, r.key) == Found(r)
  {
    s := State(Bucket(map[r.key := Decoded(EntryFor(r))], map[]), map[]);
    var scan, scanGo := Event(1, StartScan(r.key)), Event(1, Advance);
    var del, delGo := Event(2, StartDelete(r.key)), Event(2, Advance);
    var scanned := [] + [scan] + [scanGo];
    RunSnoc(s, [], scan);
    RunSnoc(s, [] + [scan], scanGo);
    assert Run(s, scanned) == State(s.bucket, map[1 := PutLedger(r, true)]);
    RunSnoc(s, scanned, del);
    RunSnoc(s, scanned + [del], delGo);
    var marked := scanned + [del] + [delGo];
    assert PcOf(Run(s, marked), 2) == DeleteTombstone(Tombstone(r)) && PcOf(Run(s, marked), 1) == PutLedger(r, true);
    InvRun(s, marked);
    StepRefinesAtomicMap(Run(s, marked), delGo, r.key);
    RunSnoc(s, marked, delGo);
    deleted, e := marked + [delGo], scanGo;
    InvRun(s, deleted);
    StepRefinesAtomicMap(Run(s, deleted), e, r.key);
  }
}

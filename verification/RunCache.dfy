/** The run-scoped record cache: one kind of record (activities, timers or events) of one
    run, write-through over the inner store, with negative entries and a "listed" flag.

    `View` is the pure picture of the cache and the store behind it; the class performs
    each operation step by step and is proved to move the view as the functions say. What
    the cache promises is then proved about every sequence of operations. */
module RunCache {
  import opened Basics

  type Run = nat
  type Id = nat

  datatype Key = Key(run: Run, id: Id)

  datatype Record = Record(key: Key, status: nat, body: nat)

  datatype Fault = ReadFailed | WriteFailed

  /** `cached[id] == None` is the remembered absence of a record. */
  datatype View = View(scope: Run, inner: map<Key, Record>, cached: map<Id, Option<Record>>, listed: bool) {
    ghost predicate Valid() {
      && (forall k :: k in inner ==> inner[k].key == k)
      && (forall i :: i in cached && cached[i].Some? ==> cached[i].value.key == Key(scope, i))
    }

    predicate Known(i: Id) { i in cached || listed }

    function Answer(i: Id): Option<Record> { if i in cached then cached[i] else None }

    function Truth(i: Id): Option<Record> { At(inner, Key(scope, i)) }

    /** The keys on which the cache would answer from memory, and answer wrongly. */
    ghost predicate Stale(i: Id) { Known(i) && Answer(i) != Truth(i) }
  }

  ghost predicate NewCache(v: View) { v.Valid() && v.cached == map[] && !v.listed }

  predicate Matches(r: Record, filter: Option<nat>) { filter.None? || r.status == filter.value }

  function InnerList(inner: map<Key, Record>, run: Run, filter: Option<nat>): set<Record> {
    set k | k in inner && k.run == run && Matches(inner[k], filter) :: inner[k]
  }

  function CachedList(v: View, filter: Option<nat>): set<Record> {
    set i | i in v.cached && v.cached[i].Some? && Matches(v.cached[i].value, filter) :: v.cached[i].value
  }

  // ---- What each operation does to the view ------------------------------------------

  function Loaded(v: View, i: Id): View { v.(cached := v.cached[i := v.Truth(i)]) }

  /** Listing adds what the inner store holds; entries it does not hold stay as they were. */
  function Merged(v: View): View { MergedFrom(v, v.inner) }

  function MergedFrom(v: View, loaded: map<Key, Record>): View {
    v.(cached := v.cached + Found(loaded, v.scope, IdsOf(loaded, v.scope)), listed := true)
  }

  function IdsOf(inner: map<Key, Record>, scope: Run): set<Id> { set k | k in inner && k.run == scope :: k.id }

  function Found(inner: map<Key, Record>, scope: Run, ids: set<Id>): map<Id, Option<Record>> {
    map i | i in ids && Key(scope, i) in inner :: Some(inner[Key(scope, i)])
  }

  datatype Op =
    | Get(key: Key, readOk: bool)
    | Refresh(key: Key, readOk: bool)
    | Put(record: Record, outcome: WriteOutcome)
    | Delete(key: Key, outcome: WriteOutcome)
    | List(run: Run, filter: Option<nat>, readOk: bool)
    | Prefetch(readOk: bool)
    // Another process changes the inner store.
    | Outside(key: Key, now: Option<Record>)

  function Stored(inner: map<Key, Record>, key: Key, now: Option<Record>): map<Key, Record> {
    if now.Some? then inner[key := now.value] else inner - {key}
  }

  function Wrote(v: View, key: Key, now: Option<Record>, outcome: WriteOutcome): View {
    var inner := if outcome.Landed() then Stored(v.inner, key, now) else v.inner;
    v.(inner := inner, cached := if outcome.Acked? && key.run == v.scope then v.cached[key.id := now] else v.cached)
  }

  function Next(v: View, op: Op): View {
    match op
    case Get(k, readOk) => if k.run == v.scope && !v.Known(k.id) && readOk then Loaded(v, k.id) else v
    case Refresh(k, readOk) => if k.run == v.scope && readOk then Loaded(v, k.id) else v
    case Put(r, outcome) => Wrote(v, r.key, Some(r), outcome)
    case Delete(k, outcome) => Wrote(v, k, None, outcome)
    case List(run, filter, readOk) => if run == v.scope && !v.listed && filter.None? && readOk then Merged(v) else v
    case Prefetch(readOk) => if readOk then Merged(v) else v
    case Outside(k, now) => v.(inner := Stored(v.inner, k, now))
  }

  ghost predicate Legal(op: Op) { op.Outside? && op.now.Some? ==> op.now.value.key == op.key }

  function GetResult(v: View, k: Key, readOk: bool): Result<Option<Record>, Fault> {
    if k.run == v.scope && v.Known(k.id) then Ok(v.Answer(k.id))
    else if readOk then Ok(At(v.inner, k))
    else Err(ReadFailed)
  }

  function ListResult(v: View, run: Run, filter: Option<nat>, readOk: bool): Result<set<Record>, Fault> {
    if run == v.scope && v.listed then Ok(CachedList(v, filter))
    else if readOk then Ok(InnerList(v.inner, run, filter))
    else Err(ReadFailed)
  }

  // ---- What the cache promises ----------------------------------------------------------

  lemma ValidStep(v: View, op: Op)
    requires v.Valid() && Legal(op)
    ensures Next(v, op).Valid()
  {
  }

  /** The exact effect of every operation on one key: which operations make it stale and
      which ones restore it. */
  lemma StaleStep(v: View, op: Op, i: Id)
    requires v.Valid() && Legal(op)
    ensures Next(v, op).Stale(i) <==>
            match op
            case Get(_, _) => v.Stale(i)
            case Refresh(k, readOk) => v.Stale(i) && !(readOk && k == Key(v.scope, i))
            case Put(r, outcome) =>
              if r.key != Key(v.scope, i) || outcome.Lost? then v.Stale(i)
              else outcome.Ambiguous? && v.Known(i) && v.Answer(i) != Some(r)
            case Delete(k, outcome) =>
              if k != Key(v.scope, i) || outcome.Lost? then v.Stale(i)
              else outcome.Ambiguous? && v.Known(i) && v.Answer(i) != None
            case List(run, filter, readOk) =>
              v.Stale(i) && !(run == v.scope && filter.None? && readOk && !v.listed && v.Truth(i).Some?)
            case Prefetch(readOk) => v.Stale(i) && !(readOk && v.Truth(i).Some?)
            case Outside(k, now) =>
              if k == Key(v.scope, i) then v.Known(i) && v.Answer(i) != now else v.Stale(i)
  {
    if (op.List? && op.run == v.scope && op.filter.None? && op.readOk && !v.listed) || (op.Prefetch? && op.readOk) {
      MergedAnswers(v, i);
    }
  }

  lemma MergedAnswers(v: View, i: Id)
    ensures Merged(v).Answer(i) == if v.Truth(i).Some? then v.Truth(i) else v.Answer(i)
    ensures Merged(v).Truth(i) == v.Truth(i)
  {
    if v.Truth(i).Some? { assert Key(v.scope, i).id in IdsOf(v.inner, v.scope); }
  }

  function After(v: View, ops: seq<Op>): View {
    if ops == [] then v else Next(After(v, ops[..|ops| - 1]), ops[|ops| - 1])
  }

  /** The last operation that settled this key was a write whose error hid that it landed, or
      another process's write. */
  predicate Unsettled(scope: Run, ops: seq<Op>, i: Id) {
    if ops == [] then false
    else
      var before := Unsettled(scope, ops[..|ops| - 1], i);
      match ops[|ops| - 1]
      case Put(r, outcome) => if r.key == Key(scope, i) && !outcome.Lost? then outcome.Ambiguous? else before
      case Delete(k, outcome) => if k == Key(scope, i) && !outcome.Lost? then outcome.Ambiguous? else before
      case Outside(k, _) => k == Key(scope, i) || before
      case Refresh(k, readOk) => before && !(k == Key(scope, i) && readOk)
      case _ => before
  }

  lemma {:induction false} StaleOnlyWhenUnsettled(v: View, ops: seq<Op>, i: Id)
    requires NewCache(v) && forall o :: o in ops ==> Legal(o)
    ensures After(v, ops).Valid() && After(v, ops).scope == v.scope
    ensures After(v, ops).Stale(i) ==> Unsettled(v.scope, ops, i)
  {
    if ops != [] {
      var front, last := ops[..|ops| - 1], ops[|ops| - 1];
      StaleOnlyWhenUnsettled(v, front, i);
      ValidStep(After(v, front), last);
      StaleStep(After(v, front), last, i);
    }
  }

  /** After any operations, a cached read of a settled key is the inner store's answer. */
  lemma GetMatchesStore(v: View, ops: seq<Op>, k: Key)
    requires NewCache(v) && forall o :: o in ops ==> Legal(o)
    requires k.run == v.scope ==> !Unsettled(v.scope, ops, k.id)
    ensures GetResult(After(v, ops), k, true) == Ok(At(After(v, ops).inner, k))
  {
    StaleOnlyWhenUnsettled(v, ops, k.id);
  }

  /** A cached list agrees with the store's list on every key that is not stale. */
  lemma ListAgrees(v: View, filter: Option<nat>, r: Record)
    requires v.Valid() && v.listed && r.key.run == v.scope && !v.Stale(r.key.id)
    ensures r in CachedList(v, filter) <==> r in InnerList(v.inner, v.scope, filter)
  {
    var i := r.key.id;
    assert v.Answer(i) == v.Truth(i);
    if r in InnerList(v.inner, v.scope, filter) {
      assert v.Truth(i) == Some(r);
      assert i in v.cached && v.cached[i].value == r;
    }
  }

  lemma ListMatchesStore(v: View, ops: seq<Op>, run: Run, filter: Option<nat>)
    requires NewCache(v) && forall o :: o in ops ==> Legal(o)
    requires forall i :: !Unsettled(v.scope, ops, i)
    ensures ListResult(After(v, ops), run, filter, true) == Ok(InnerList(After(v, ops).inner, run, filter))
  {
    var w := After(v, ops);
    StaleOnlyWhenUnsettled(v, ops, 0);
    if run == w.scope && w.listed {
      forall r | r in CachedList(w, filter) + InnerList(w.inner, run, filter)
        ensures r in CachedList(w, filter) && r in InnerList(w.inner, run, filter)
      {
        StaleOnlyWhenUnsettled(v, ops, r.key.id);
        ListAgrees(w, filter, r);
      }
      assert CachedList(w, filter) == InnerList(w.inner, run, filter);
    }
  }

  /** The exception is real: wherever the cache already answers from memory, a put that lands
      behind an error is masked by the old answer until the key is refreshed. */
  lemma AmbiguousPutIsMasked(v: View, r: Record)
    requires r.key.run == v.scope && v.Known(r.key.id) && v.Answer(r.key.id) != Some(r)
    ensures var w := Next(v, Put(r, Ambiguous));
            && GetResult(w, r.key, true) == Ok(v.Answer(r.key.id)) && At(w.inner, r.key) == Some(r) && w.Stale(r.key.id)
            && GetResult(Next(w, Refresh(r.key, true)), r.key, true) == Ok(Some(r))
  {
    assert r.key == Key(v.scope, r.key.id);
  }

  // ---- Overlapping calls: a read holds no lock while it loads ------------------------------

  /** The second half of a missed read, holding the answer its load saw earlier. */
  function Remembered(v: View, i: Id, loaded: Option<Record>): View { v.(cached := v.cached[i := loaded]) }

  /** What the last landed write to a key left there, if any landed. */
  function LastLanded(k: Key, ops: seq<Op>): Option<Option<Record>> {
    if ops == [] then None
    else
      var before := LastLanded(k, ops[..|ops| - 1]);
      match ops[|ops| - 1]
      case Put(r, outcome) => if r.key == k && outcome.Landed() then Some(Some(r)) else before
      case Delete(d, outcome) => if d == k && outcome.Landed() then Some(None) else before
      case Outside(o, now) => if o == k then Some(now) else before
      case _ => before
  }

  lemma {:induction false} StoreHoldsLastLanded(v: View, ops: seq<Op>, k: Key)
    ensures After(v, ops).scope == v.scope
    ensures At(After(v, ops).inner, k) == match LastLanded(k, ops) case Some(now) => now case None => At(v.inner, k)
  {
    if ops != [] { StoreHoldsLastLanded(v, ops[..|ops| - 1], k); }
  }

  /** A read or refresh that loads in `v` and remembers after any operations `between` leaves its
      key stale exactly when the last write to that key that landed in between left something
      other than what the load saw; every other key is as the others left it. */
  lemma OverlappedReadIsStaleExactly(v: View, between: seq<Op>, i: Id, j: Id)
    ensures var x := Remembered(After(v, between), i, v.Truth(i));
            x.Stale(j) <==>
            if j == i then LastLanded(Key(v.scope, i), between).Some? && LastLanded(Key(v.scope, i), between).value != v.Truth(i)
            else After(v, between).Stale(j)
  {
    StoreHoldsLastLanded(v, between, Key(v.scope, i));
  }

  /** So an acknowledged put that lands between the halves is hidden behind what the load saw,
      although neither call failed. */
  lemma OverlappedReadHidesAckedPut(v: View, r: Record)
    requires r.key.run == v.scope && v.Truth(r.key.id) != Some(r)
    ensures var x := Remembered(After(v, [Put(r, Acked)]), r.key.id, v.Truth(r.key.id));
            At(x.inner, r.key) == Some(r) && GetResult(x, r.key, true) == Ok(v.Truth(r.key.id)) && x.Stale(r.key.id)
  {
    var ops := [Put(r, Acked)];
    assert ops[..0] == [];
    assert After(v, ops) == Wrote(v, r.key, Some(r), Acked);
  }

  /** A list or prefetch that loads in `v` and merges after any operations `between`: a key it listed,
      or that nobody remembered since, is stale exactly when the last write to it that landed in
      between left something other than what was listed; an entry the list has nothing for stays. */
  lemma OverlappedListIsStaleExactly(v: View, between: seq<Op>, i: Id)
    ensures var w := After(v, between);
            MergedFrom(w, v.inner).Stale(i) <==>
            if v.Truth(i).Some? || i !in w.cached
            then LastLanded(Key(v.scope, i), between).Some? && LastLanded(Key(v.scope, i), between).value != v.Truth(i)
            else w.Stale(i)
  {
    StoreHoldsLastLanded(v, between, Key(v.scope, i));
    if v.Truth(i).Some? { assert Key(v.scope, i).id in IdsOf(v.inner, v.scope); }
  }

  /** So an acknowledged put between the halves is hidden exactly when the list held another
      record of its key: a record the list had not seen survives the merge. */
  lemma OverlappedListHidesAckedPutExactly(v: View, r: Record)
    requires r.key.run == v.scope
    ensures MergedFrom(After(v, [Put(r, Acked)]), v.inner).Stale(r.key.id) <==> v.Truth(r.key.id).Some? && v.Truth(r.key.id) != Some(r)
  {
    var ops := [Put(r, Acked)];
    assert ops[..0] == [];
    assert After(v, ops) == Wrote(v, r.key, Some(r), Acked);
    OverlappedListIsStaleExactly(v, ops, r.key.id);
  }

  // ---- The cache itself --------------------------------------------------------------------

  /** The records in any order, once each. */
  method Enumerate(records: set<Record>) returns (s: seq<Record>)
    ensures NoDuplicates(s) && Elements(s) == records
  {
    s := [];
    var todo := records;
    while todo != {}
      invariant todo <= records && NoDuplicates(s)
      invariant forall r :: r in s <==> r in records - todo
    {
      var r :| r in todo;
      assert r !in s;
      s, todo := s + [r], todo - {r};
    }
  }

  class KindCache {
    const scope: Run
    var inner: map<Key, Record>
    var cached: map<Id, Option<Record>>
    var listed: bool

    ghost function V(): View reads this { View(scope, inner, cached, listed) }

    constructor (scope: Run, inner: map<Key, Record>)
      requires forall k :: k in inner ==> inner[k].key == k
      ensures NewCache(V()) && V().inner == inner && V().scope == scope
    {
      this.scope, this.inner, this.cached, this.listed := scope, inner, map[], false;
    }

    method Load(k: Key, readOk: bool) returns (r: Result<Option<Record>, Fault>)
      ensures r == if readOk then Ok(At(inner, k)) else Err(ReadFailed)
    {
      if !readOk { return Err(ReadFailed); }
      r := Ok(if k in inner then Some(inner[k]) else None);
    }

    method Get(k: Key, readOk: bool) returns (r: Result<Option<Record>, Fault>)
      modifies this`cached
      ensures r == GetResult(old(V()), k, readOk) && V() == Next(old(V()), Op.Get(k, readOk))
    {
      if k.run != scope {
        r := Load(k, readOk);
        return;
      }
      if k.id in cached { return Ok(cached[k.id]); }
      if listed { return Ok(None); }
      r := Load(k, readOk);
      if r.Err? { return; }
      cached := cached[k.id := r.value];
    }

    method Refresh(k: Key, readOk: bool) returns (r: Result<Option<Record>, Fault>)
      modifies this`cached
      ensures r == if readOk then Ok(At(inner, k)) else Err(ReadFailed)
      ensures V() == Next(old(V()), Op.Refresh(k, readOk))
    {
      r := Load(k, readOk);
      if r.Err? || k.run != scope { return; }
      cached := cached[k.id := r.value];
    }

    method Put(record: Record, outcome: WriteOutcome) returns (r: Result<(), Fault>)
      modifies this`inner, this`cached
      ensures r.Ok? <==> outcome.Acked?
      ensures V() == Next(old(V()), Op.Put(record, outcome))
    {
      if outcome.Landed() { inner := inner[record.key := record]; }
      if !outcome.Acked? { return Err(WriteFailed); }
      if record.key.run == scope { cached := cached[record.key.id := Some(record)]; }
      r := Ok(());
    }

    method Delete(k: Key, outcome: WriteOutcome) returns (r: Result<bool, Fault>)
      modifies this`inner, this`cached
      ensures r == if outcome.Acked? then Ok(k in old(inner)) else Err(WriteFailed)
      ensures V() == Next(old(V()), Op.Delete(k, outcome))
    {
      var found := k in inner;
      if outcome.Landed() { inner := inner - {k}; }
      if !outcome.Acked? { return Err(WriteFailed); }
      if k.run == scope { cached := cached[k.id := None]; }
      r := Ok(found);
    }

    /** Remember every listed record, one at a time. */
    method Remember(records: seq<Record>)
      requires V().Valid() && Elements(records) == InnerList(inner, scope, None)
      modifies this`cached, this`listed
      ensures V() == Merged(old(V()))
    {
      var n := 0;
      while n < |records|
        invariant 0 <= n <= |records| && listed == old(listed)
        invariant cached == old(cached) + Found(inner, scope, KeyIds(records[..n]))
      {
        var r := records[n];
        assert r in Elements(records);
        RememberOne(old(cached), inner, scope, records, n);
        cached := cached[r.key.id := Some(r)];
        n := n + 1;
      }
      listed := true;
      assert records[..n] == records;
      ListedIds(inner, scope, records);
    }

    method ListAndRemember()
      requires V().Valid()
      modifies this`cached, this`listed
      ensures V() == Merged(old(V()))
    {
      var records := Enumerate(InnerList(inner, scope, None));
      Remember(records);
    }

    method List(run: Run, filter: Option<nat>, readOk: bool) returns (r: Result<seq<Record>, Fault>)
      requires V().Valid()
      modifies this`cached, this`listed
      ensures V() == Next(old(V()), Op.List(run, filter, readOk))
      ensures r.Ok? <==> ListResult(old(V()), run, filter, readOk).Ok?
      ensures r.Ok? ==> NoDuplicates(r.value) && Elements(r.value) == ListResult(old(V()), run, filter, readOk).value
    {
      if run == scope && listed {
        var records := [];
        var todo := cached.Keys;
        while todo != {}
          invariant todo <= cached.Keys && NoDuplicates(records)
          invariant forall r :: r in records <==>
                      exists i :: i in cached.Keys - todo && cached[i] == Some(r) && Matches(r, filter)
        {
          var i :| i in todo;
          todo := todo - {i};
          if cached[i].Some? && Matches(cached[i].value, filter) { records := records + [cached[i].value]; }
        }
        return Ok(records);
      }
      if !readOk { return Err(ReadFailed); }
      var records := Enumerate(InnerList(inner, run, filter));
      r := Ok(records);
      // Only an unfiltered list of the scoped run fills the cache.
      if run == scope && filter.None? { Remember(records); }
    }
  }

  function KeyIds(records: seq<Record>): set<Id> { set r | r in records :: r.key.id }

  lemma RememberOne(base: map<Id, Option<Record>>, inner: map<Key, Record>, scope: Run, records: seq<Record>, n: nat)
    requires n < |records| && records[n].key in inner && records[n].key.run == scope && inner[records[n].key] == records[n]
    ensures base + Found(inner, scope, KeyIds(records[..n + 1])) ==
            (base + Found(inner, scope, KeyIds(records[..n])))[records[n].key.id := Some(records[n])]
  {
    TakeSnoc(records, n);
    assert KeyIds(records[..n + 1]) == KeyIds(records[..n]) + {records[n].key.id};
  }

  lemma ListedIds(inner: map<Key, Record>, scope: Run, records: seq<Record>)
    requires forall k :: k in inner ==> inner[k].key == k
    requires Elements(records) == InnerList(inner, scope, None)
    ensures KeyIds(records) == IdsOf(inner, scope)
  {
    forall r | r in records ensures r.key.id in IdsOf(inner, scope) { assert r in Elements(records); }
    forall i | i in IdsOf(inner, scope) ensures i in KeyIds(records) {
      assert inner[Key(scope, i)] in Elements(records);
    }
  }

  /** `prefetch` over the three kinds: nothing is remembered unless all three lists succeed. */
  method PrefetchAll(activities: KindCache, timers: KindCache, events: KindCache, ok: (bool, bool, bool))
    returns (r: Result<(), Fault>)
    requires activities != timers && timers != events && activities != events
    requires activities.V().Valid() && timers.V().Valid() && events.V().Valid()
    modifies activities`cached, activities`listed, timers`cached, timers`listed, events`cached, events`listed
    ensures r.Ok? <==> ok.0 && ok.1 && ok.2
    ensures activities.V() == Next(old(activities.V()), Prefetch(r.Ok?))
    ensures timers.V() == Next(old(timers.V()), Prefetch(r.Ok?))
    ensures events.V() == Next(old(events.V()), Prefetch(r.Ok?))
  {
    if !ok.0 || !ok.1 || !ok.2 { return Err(ReadFailed); }
    activities.ListAndRemember();
    timers.ListAndRemember();
    events.ListAndRemember();
    r := Ok(());
  }
}

/** The retention sweep: re-read every queried run, snapshot the expired ones, and only when the
    whole plan stands delete them, children first and the workflow record last. Any read or
    list call may fail while planning; any delete call may fail, with or without having landed. */
module Janitor {
  import opened Basics

  datatype Run = Run(namespace: nat, id: nat)

  datatype Status = InProgress | Completed | Failed

  datatype Workflow = Workflow(status: Status, completedAt: Option<int>)

  datatype Kind = Claim | Activity | Timer | Event

  datatype Key = Key(run: Run, id: nat)

  datatype Object = Child(kind: Kind, key: Key) | RunRecord(run: Run)

  type ChildObject = x: Object | x.Child? witness Child(Claim, Key(Run(0, 0), 0))

  datatype Contents = Contents(workflows: map<Run, Workflow>, children: set<ChildObject>)

  datatype Error =
    | InvalidRequest | CapabilityUnsupported | ClaimListingUnsupported | QueryFailed | RepeatedPageToken
    | DataLoss | ReadFailed | ListFailed | DeleteFailed

  /** A planned sweep and the answers its read calls get: the rows of the query, which may
      be nil or lag behind, the runs whose record cannot be read, and the keys each list call
      returns (none for a list call that fails). */
  datatype Request = Request(maxAge: int, now: int, namespace: Option<nat>, rows: seq<Option<Run>>, unreadable: set<Run>,
                             withClaims: bool, listed: map<(Kind, Run), seq<Key>>)

  datatype Plan = Plan(run: Run, claims: seq<Key>, activities: seq<Key>, timers: seq<Key>, events: seq<Key>)

  predicate Expired(r: Request, w: Workflow) {
    w.status.Completed? && w.completedAt.Some? && w.completedAt.value <= r.now - r.maxAge
  }

  // ---- The plan, as a value -----------------------------------------------------------------

  predicate AllOf(keys: seq<Key>, run: Run) { forall k :: k in keys ==> k.run == run }

  function Snapshot(r: Request, run: Run): Result<Plan, Error> {
    if (r.withClaims && (Claim, run) !in r.listed) || (Activity, run) !in r.listed || (Timer, run) !in r.listed
       || (Event, run) !in r.listed
    then Err(ListFailed)
    else
      var claims := if r.withClaims then r.listed[(Claim, run)] else [];
      var activities, timers, events := r.listed[(Activity, run)], r.listed[(Timer, run)], r.listed[(Event, run)];
      if AllOf(claims, run) && AllOf(activities, run) && AllOf(timers, run) && AllOf(events, run)
      then Ok(Plan(run, claims, activities, timers, events)) else Err(DataLoss)
  }

  function PlanRow(r: Request, c: Contents, earlier: seq<Option<Run>>, row: Option<Run>): Result<seq<Plan>, Error> {
    if row.None? then Err(DataLoss)
    else if r.namespace.Some? && r.namespace.value != row.value.namespace then Err(DataLoss)
    else if row in earlier then Err(DataLoss)
    else if row.value in r.unreadable then Err(ReadFailed)
    else if row.value !in c.workflows then Ok([])
    else
      var w := c.workflows[row.value];
      if !w.status.Completed? then Ok([])
      else if w.completedAt.None? then Err(DataLoss)
      else if w.completedAt.value > r.now - r.maxAge then Ok([])
      else match Snapshot(r, row.value)
           case Ok(plan) => Ok([plan])
           case Err(e) => Err(e)
  }

  function Plans(r: Request, c: Contents, rows: seq<Option<Run>>): Result<seq<Plan>, Error> {
    if rows == [] then Ok([])
    else
      var front, last := rows[..|rows| - 1], rows[|rows| - 1];
      match Plans(r, c, front)
      case Err(e) => Err(e)
      case Ok(ps) =>
        match PlanRow(r, c, front, last)
        case Err(e) => Err(e)
        case Ok(more) => Ok(ps + more)
  }

  function Objects(kind: Kind, keys: seq<Key>): (objects: seq<Object>)
    ensures |objects| == |keys| && forall i :: 0 <= i < |keys| ==> objects[i] == Child(kind, keys[i])
  {
    seq(|keys|, i requires 0 <= i < |keys| => Child(kind, keys[i]))
  }

  function ChildObjects(p: Plan): seq<Object> {
    Objects(Claim, p.claims) + Objects(Activity, p.activities) + Objects(Timer, p.timers) + Objects(Event, p.events)
  }

  function Order(ps: seq<Plan>): seq<Object> {
    if ps == [] then []
    else Order(ps[..|ps| - 1]) + ChildObjects(ps[|ps| - 1]) + [RunRecord(ps[|ps| - 1].run)]
  }

  function Without(c: Contents, gone: seq<Object>): Contents {
    Contents(map run | run in c.workflows && RunRecord(run) !in gone :: c.workflows[run],
             set x | x in c.children && x !in gone)
  }

  // ---- What a plan contains ------------------------------------------------------------------

  ghost predicate PlanFits(r: Request, c: Contents, p: Plan) {
    && p.run in c.workflows && Expired(r, c.workflows[p.run]) && Some(p.run) in r.rows
    && Snapshot(r, p.run) == Ok(p)
  }

  lemma {:induction false} PlansFit(r: Request, c: Contents, rows: seq<Option<Run>>)
    requires Plans(r, c, rows).Ok? && forall x :: x in rows ==> x in r.rows
    ensures forall p :: p in Plans(r, c, rows).value ==> PlanFits(r, c, p) && Some(p.run) in rows
  {
    if rows != [] {
      var front, last := rows[..|rows| - 1], rows[|rows| - 1];
      PlansFit(r, c, front);
      assert last in rows;
      var more := PlanRow(r, c, front, last).value;
      assert forall p :: p in more ==> PlanFits(r, c, p) && Some(p.run) == last;
      assert Plans(r, c, rows).value == Plans(r, c, front).value + more;
    }
  }

  lemma {:induction false} ExpiredRowsArePlanned(r: Request, c: Contents, rows: seq<Option<Run>>, run: Run)
    requires Plans(r, c, rows).Ok? && Some(run) in rows && run in c.workflows && Expired(r, c.workflows[run])
    ensures exists p :: p in Plans(r, c, rows).value && p.run == run
  {
    var front, last := rows[..|rows| - 1], rows[|rows| - 1];
    var more := PlanRow(r, c, front, last).value;
    assert Plans(r, c, rows).value == Plans(r, c, front).value + more;
    if last == Some(run) {
      assert more[0].run == run && more[0] in more;
    } else {
      assert Some(run) in front;
      ExpiredRowsArePlanned(r, c, front, run);
    }
  }

  // ---- Where an interrupted deletion can stop --------------------------------------------------

  lemma {:induction false} OrderOnlyNamesPlannedRuns(ps: seq<Plan>, x: Object)
    requires x in Order(ps)
    ensures exists p :: p in ps && (x in ChildObjects(p) || x == RunRecord(p.run))
  {
    var front, last := ps[..|ps| - 1], ps[|ps| - 1];
    if x in Order(front) {
      OrderOnlyNamesPlannedRuns(front, x);
      var p :| p in front && (x in ChildObjects(p) || x == RunRecord(p.run));
      assert p in ps;
    } else {
      assert last in ps;
    }
  }

  /** The workflow record goes last: every cut that has reached it has passed the run's children. */
  lemma {:induction false} ChildrenGoFirst(ps: seq<Plan>, n: nat, run: Run)
    requires n <= |Order(ps)| && RunRecord(run) in Order(ps)[..n]
    ensures exists p :: p in ps && p.run == run && forall x :: x in ChildObjects(p) ==> x in Order(ps)[..n]
  {
    var front, last := ps[..|ps| - 1], ps[|ps| - 1];
    var before := Order(front);
    if n <= |before| {
      assert Order(ps)[..n] == before[..n];
      ChildrenGoFirst(front, n, run);
      var p :| p in front && p.run == run && forall x :: x in ChildObjects(p) ==> x in before[..n];
      assert p in ps;
    } else if RunRecord(run) in before {
      assert before[..|before|] == before;
      ChildrenGoFirst(front, |before|, run);
      var p :| p in front && p.run == run && forall x :: x in ChildObjects(p) ==> x in before;
      assert p in ps && Order(ps)[..n][..|before|] == before;
    } else {
      LastPlanReached(ps, n, run);
    }
  }

  lemma LastPlanReached(ps: seq<Plan>, n: nat, run: Run)
    requires ps != [] && |Order(ps[..|ps| - 1])| < n <= |Order(ps)|
    requires RunRecord(run) in Order(ps)[..n] && RunRecord(run) !in Order(ps[..|ps| - 1])
    ensures n == |Order(ps)| && ps[|ps| - 1].run == run
    ensures forall x :: x in ChildObjects(ps[|ps| - 1]) ==> x in Order(ps)[..n]
  {
    var before, last := Order(ps[..|ps| - 1]), ps[|ps| - 1];
    ChildrenAreNotRuns(last, run);
    assert Order(ps) == before + (ChildObjects(last) + [RunRecord(last.run)]);
    forall j | 0 <= j < |before| + |ChildObjects(last)| ensures Order(ps)[j] != RunRecord(run) {
      assert Order(ps)[j] == if j < |before| then before[j] else ChildObjects(last)[j - |before|];
    }
    assert Order(ps)[..n] == Order(ps);
  }

  lemma ChildrenAreNotRuns(p: Plan, run: Run)
    ensures RunRecord(run) !in ChildObjects(p)
  {
  }

  // ---- What a sweep leaves -----------------------------------------------------------------------

  /** The listing calls told the truth about the run, and every kind of child was listed. */
  ghost predicate Honest(r: Request, c: Contents, run: Run) {
    && (forall kind, k: Key :: (kind, run) in r.listed ==>
          (k in r.listed[(kind, run)] <==> k.run == run && Child(kind, k) in c.children))
    && (!r.withClaims ==> forall k: Key :: k.run == run ==> Child(Claim, k) !in c.children)
  }

  /** Everything a sweep may do, whatever fails: nothing at all on a planning error, otherwise
      the planned deletions up to some point, all of them exactly when it reports success. */
  ghost predicate Swept(r: Request, c: Contents, d: Contents, error: Option<Error>, deleted: nat) {
    if r.maxAge <= 0 then d == c && error == Some(InvalidRequest) && deleted == 0
    else match Plans(r, c, r.rows)
         case Err(e) => d == c && error == Some(e) && deleted == 0
         case Ok(ps) =>
           if error.None? then d == Without(c, Order(ps)) && deleted == |ps|
           else error.value == DeleteFailed && deleted < |ps|
                && exists n: nat :: CutWithin(ps, deleted, n) && d == Without(c, Order(ps)[..n])
  }

  /** A point inside the deletion of plan `i`, with the plans before it deleted in full. */
  ghost predicate CutWithin(ps: seq<Plan>, i: nat, n: nat) {
    i < |ps| && |Order(ps[..i])| <= n <= |Order(ps[..i + 1])| && n <= |Order(ps)|
  }

  lemma SweptCut(r: Request, c: Contents, d: Contents, error: Option<Error>, deleted: nat) returns (ps: seq<Plan>, n: nat)
    requires Swept(r, c, d, error, deleted) && (error.None? || error.value.DeleteFailed?)
    ensures Plans(r, c, r.rows) == Ok(ps) && n <= |Order(ps)| && d == Without(c, Order(ps)[..n])
    ensures error.None? ==> n == |Order(ps)|
    ensures forall p :: p in ps ==> PlanFits(r, c, p)
  {
    PlansNeverFailToDelete(r, c, r.rows);
    ps := Plans(r, c, r.rows).value;
    PlansFit(r, c, r.rows);
    if error.None? {
      n := |Order(ps)|;
      assert Order(ps)[..n] == Order(ps);
    } else {
      n :| CutWithin(ps, deleted, n) && d == Without(c, Order(ps)[..n]);
    }
  }

  lemma {:induction false} PlansNeverFailToDelete(r: Request, c: Contents, rows: seq<Option<Run>>)
    ensures Plans(r, c, rows).Err? ==> !Plans(r, c, rows).error.DeleteFailed? && !Plans(r, c, rows).error.InvalidRequest?
  {
    if rows != [] { PlansNeverFailToDelete(r, c, rows[..|rows| - 1]); }
  }

  /** Only expired, queried runs lose anything; everything else is untouched. */
  lemma OnlyExpiredRunsAreTouched(r: Request, c: Contents, d: Contents, error: Option<Error>, deleted: nat, run: Run)
    requires Swept(r, c, d, error, deleted)
    requires !(run in c.workflows && Expired(r, c.workflows[run]) && Some(run) in r.rows)
    ensures At(d.workflows, run) == At(c.workflows, run)
    ensures forall kind, k: Key :: k.run == run ==> (Child(kind, k) in d.children <==> Child(kind, k) in c.children)
  {
    if error.None? || error.value.DeleteFailed? {
      var ps, n := SweptCut(r, c, d, error, deleted);
      forall x | x in Order(ps)[..n] ensures (if x.Child? then x.key.run else x.run) != run {
        assert x in Order(ps);
        OrderOnlyNamesPlannedRuns(ps, x);
        var p :| p in ps && (x in ChildObjects(p) || x == RunRecord(p.run));
        PlannedChildrenBelong(r, c, p);
      }
    }
  }

  lemma PlannedChildrenBelong(r: Request, c: Contents, p: Plan)
    requires PlanFits(r, c, p)
    ensures forall x :: x in ChildObjects(p) ==> x.Child? && x.key.run == p.run
  {
    forall kind, keys, x | AllOf(keys, p.run) && x in Objects(kind, keys) ensures x.Child? && x.key.run == p.run {
      var i :| 0 <= i < |keys| && Objects(kind, keys)[i] == x;
      assert keys[i] in keys;
    }
  }

  /** At every cut a run whose record is gone has no children left: nothing is orphaned. */
  lemma NoOrphansAtAnyCut(r: Request, c: Contents, d: Contents, error: Option<Error>, deleted: nat, run: Run, kind: Kind, k: Key)
    requires Swept(r, c, d, error, deleted) && Honest(r, c, run)
    requires run in c.workflows && run !in d.workflows && k.run == run
    ensures Child(kind, k) !in d.children
  {
    var ps, n := SweptCut(r, c, d, error, deleted);
    ChildrenGoFirst(ps, n, run);
    var p :| p in ps && p.run == run && forall x :: x in ChildObjects(p) ==> x in Order(ps)[..n];
    if Child(kind, k) in c.children { HonestPlanIsComplete(r, c, p, kind, k); }
  }

  lemma HonestPlanIsComplete(r: Request, c: Contents, p: Plan, kind: Kind, k: Key)
    requires PlanFits(r, c, p) && Honest(r, c, p.run) && k.run == p.run && Child(kind, k) in c.children
    ensures Child(kind, k) in ChildObjects(p)
  {
    assert (kind, p.run) in r.listed && k in r.listed[(kind, p.run)];
    var i :| 0 <= i < |r.listed[(kind, p.run)]| && r.listed[(kind, p.run)][i] == k;
    assert Objects(kind, r.listed[(kind, p.run)])[i] == Child(kind, k);
  }

  /** Success removes every expired run of the query, with all its children. */
  lemma SuccessRemovesEveryExpiredRun(r: Request, c: Contents, d: Contents, deleted: nat, run: Run)
    requires Swept(r, c, d, None, deleted) && Some(run) in r.rows
    requires run in c.workflows && Expired(r, c.workflows[run])
    ensures run !in d.workflows
  {
    var ps, n := SweptCut(r, c, d, None, deleted);
    ExpiredRowsArePlanned(r, c, r.rows, run);
    var p :| p in ps && p.run == run;
    OrderReachesPlan(ps, p);
  }

  lemma {:induction false} OrderReachesPlan(ps: seq<Plan>, p: Plan)
    requires p in ps
    ensures RunRecord(p.run) in Order(ps)
  {
    if p != ps[|ps| - 1] { OrderReachesPlan(ps[..|ps| - 1], p); }
  }

  /** Re-running after any interruption finishes the job: on quiesced runs, a sweep that stops
      anywhere and a later one that succeeds leave neither the record nor any child of a run
      that had expired. */
  lemma RerunRemovesWhatRemained(r1: Request, c: Contents, d: Contents, error: Option<Error>, n1: nat,
                                 r2: Request, e: Contents, n2: nat, run: Run, kind: Kind, k: Key)
    requires Swept(r1, c, d, error, n1) && Swept(r2, d, e, None, n2)
    requires run in c.workflows && Expired(r2, c.workflows[run]) && k.run == run
    requires Honest(r1, c, run) && (run in d.workflows ==> Some(run) in r2.rows && Honest(r2, d, run))
    ensures run !in e.workflows && Child(kind, k) !in e.children
  {
    if run in d.workflows {
      assert error.None? || error.value.DeleteFailed? ==> d.workflows[run] == c.workflows[run] by {
        if error.None? || error.value.DeleteFailed? { var ps, n := SweptCut(r1, c, d, error, n1); }
      }
      SuccessRemovesEveryExpiredRun(r2, d, e, n2, run);
      NoOrphansAtAnyCut(r2, d, e, None, n2, run, kind, k);
    } else {
      NoOrphansAtAnyCut(r1, c, d, error, n1, run, kind, k);
      var ps, n := SweptCut(r2, d, e, None, n2);
    }
  }

  // ---- The claim store and the query ---------------------------------------------------------

  /** What the claim store says about itself, if there is one. */
  datatype ClaimSupport = NoClaimStore | CapabilityFails | Unspecified | NoClaims | CreateOnly(listsRuns: bool) | OtherCapability

  /** Whether claims are listed and deleted; a store that keeps claims it cannot list is refused. */
  function Preflight(c: ClaimSupport): Result<bool, Error> {
    match c
    case NoClaimStore => Ok(false)
    case CapabilityFails => Err(ReadFailed)
    case Unspecified => Ok(false)
    case NoClaims => Ok(false)
    case CreateOnly(listsRuns) => if listsRuns then Ok(true) else Err(ClaimListingUnsupported)
    case OtherCapability => Err(CapabilityUnsupported)
  }

  type Token = nat
  const EMPTY_TOKEN: Token := 0

  datatype QueryPage = QueryPage(rows: seq<Option<Run>>, next: Token)

  /** A sweep as it is called: the answers of the query by page token, none where it fails. */
  datatype Input = Input(maxAge: int, now: int, namespace: Option<nat>, claims: ClaimSupport, pages: map<Token, QueryPage>,
                         unreadable: set<Run>, listed: map<(Kind, Run), seq<Key>>)

  function RequestFor(i: Input, rows: seq<Option<Run>>, withClaims: bool): Request {
    Request(i.maxAge, i.now, i.namespace, rows, i.unreadable, withClaims, i.listed)
  }

  /** The token of the query's `n`-th call, if it makes one. */
  function TokenAt(pages: map<Token, QueryPage>, n: nat): Option<Token> {
    if n == 0 then Some(EMPTY_TOKEN)
    else match TokenAt(pages, n - 1)
         case None => None
         case Some(t) => if t in pages && pages[t].next != EMPTY_TOKEN then Some(pages[t].next) else None
  }

  function RowsOf(pages: map<Token, QueryPage>, n: nat): seq<Option<Run>> {
    if n == 0 then []
    else RowsOf(pages, n - 1) + match TokenAt(pages, n - 1)
                                case Some(t) => if t in pages then pages[t].rows else []
                                case None => []
  }

  /** The call that ends the query well. */
  ghost predicate LastCall(pages: map<Token, QueryPage>, n: nat) {
    TokenAt(pages, n).Some? && TokenAt(pages, n).value in pages && pages[TokenAt(pages, n).value].next == EMPTY_TOKEN
  }

  /** The rows of all pages; failure where a call fails; and a repeated token reported exactly when
      following tokens would never end. */
  ghost predicate QueryYields(pages: map<Token, QueryPage>, r: Result<seq<Option<Run>>, Error>) {
    match r
    case Ok(rows) => exists n: nat :: LastCall(pages, n) && rows == RowsOf(pages, n + 1)
    case Err(e) =>
      (e == RepeatedPageToken && forall n: nat :: TokenAt(pages, n).Some?) ||
      (e == QueryFailed && exists n: nat :: TokenAt(pages, n).Some? && TokenAt(pages, n).value !in pages)
  }

  lemma {:induction false} EarlierTokens(pages: map<Token, QueryPage>, m: nat, n: nat)
    requires m <= n && TokenAt(pages, n).Some?
    ensures TokenAt(pages, m).Some?
  {
    if m < n { EarlierTokens(pages, m, n - 1); }
  }

  /** A token that comes back brings everything after it back. */
  lemma {:induction false} TokensRepeat(pages: map<Token, QueryPage>, i: nat, j: nat, n: nat)
    requires i < j && TokenAt(pages, j).Some? && TokenAt(pages, i) == TokenAt(pages, j)
    ensures TokenAt(pages, n).Some?
    ensures n >= j ==> TokenAt(pages, n) == TokenAt(pages, n - (j - i))
  {
    if n <= j {
      EarlierTokens(pages, n, j);
    } else {
      TokensRepeat(pages, i, j, n - 1);
      TokensRepeat(pages, i, j, n - (j - i));
    }
  }

  /** The query makes its last call, which may fail. */
  ghost predicate Ends(pages: map<Token, QueryPage>, n: nat) { TokenAt(pages, n).Some? && TokenAt(pages, n + 1).None? }

  lemma EndsOnce(pages: map<Token, QueryPage>, m: nat, n: nat)
    requires Ends(pages, m) && Ends(pages, n)
    ensures m == n
  {
    if m < n { EarlierTokens(pages, m + 1, n); }
    if n < m { EarlierTokens(pages, n + 1, m); }
  }

  lemma YieldsAt(pages: map<Token, QueryPage>, n: nat, r: Result<seq<Option<Run>>, Error>)
    requires Ends(pages, n) && QueryYields(pages, r)
    ensures r == if TokenAt(pages, n).value in pages then Ok(RowsOf(pages, n + 1)) else Err(QueryFailed)
  {
    if r.Ok? {
      var m: nat :| LastCall(pages, m) && r.value == RowsOf(pages, m + 1);
      EndsOnce(pages, m, n);
    } else if r.error == QueryFailed {
      var m: nat :| TokenAt(pages, m).Some? && TokenAt(pages, m).value !in pages;
      EndsOnce(pages, m, n);
    }
  }

  lemma EndOf(pages: map<Token, QueryPage>, r: Result<seq<Option<Run>>, Error>) returns (n: nat)
    requires QueryYields(pages, r) && r != Err(RepeatedPageToken)
    ensures Ends(pages, n)
  {
    if r.Ok? {
      n :| LastCall(pages, n) && r.value == RowsOf(pages, n + 1);
    } else {
      n :| TokenAt(pages, n).Some? && TokenAt(pages, n).value !in pages;
    }
  }

  /** The outcome is determined: a repeated token is reported exactly when the query never ends. */
  lemma QueryYieldsOne(pages: map<Token, QueryPage>, a: Result<seq<Option<Run>>, Error>, b: Result<seq<Option<Run>>, Error>)
    requires QueryYields(pages, a) && QueryYields(pages, b)
    ensures a == b
    ensures a == Err(RepeatedPageToken) <==> forall n: nat :: TokenAt(pages, n).Some?
  {
    if a != Err(RepeatedPageToken) {
      var n := EndOf(pages, a);
      YieldsAt(pages, n, a);
      YieldsAt(pages, n, b);
      var after: nat := n + 1;
      assert TokenAt(pages, after).None?;
    } else if b != a {
      var n := EndOf(pages, b);
      YieldsAt(pages, n, a);
    }
  }

  /** The tokens handed out by the first `n` calls. */
  function SeenBy(pages: map<Token, QueryPage>, n: nat): set<Token> {
    if n == 0 then {}
    else SeenBy(pages, n - 1) + if TokenAt(pages, n).Some? then {TokenAt(pages, n).value} else {}
  }

  lemma {:induction false} SeenAt(pages: map<Token, QueryPage>, n: nat, t: Token) returns (i: nat)
    requires t in SeenBy(pages, n)
    ensures i <= n && TokenAt(pages, i) == Some(t)
  {
    if TokenAt(pages, n) == Some(t) { i := n; } else { i := SeenAt(pages, n - 1, t); }
  }

  lemma SeenTokenReturns(pages: map<Token, QueryPage>, n: nat, next: Token)
    requires next in SeenBy(pages, n) && TokenAt(pages, n + 1) == Some(next)
    ensures QueryYields(pages, Err(RepeatedPageToken))
  {
    var i := SeenAt(pages, n, next);
    forall m: nat ensures TokenAt(pages, m).Some? { TokensRepeat(pages, i, n + 1, m); }
  }

  method ListCompleted(pages: map<Token, QueryPage>) returns (r: Result<seq<Option<Run>>, Error>)
    ensures QueryYields(pages, r)
  {
    var rows: seq<Option<Run>>, token, seen: set<Token> := [], EMPTY_TOKEN, {};
    ghost var n: nat := 0;
    while true
      invariant TokenAt(pages, n) == Some(token) && rows == RowsOf(pages, n) && seen == SeenBy(pages, n)
      decreases |pages.Keys - seen|, if token in pages then 1 else 0
    {
      if token !in pages { return Err(QueryFailed); }
      rows := rows + pages[token].rows;
      var next := pages[token].next;
      if next == EMPTY_TOKEN {
        assert LastCall(pages, n);
        return Ok(rows);
      }
      if next in seen {
        SeenTokenReturns(pages, n, next);
        return Err(RepeatedPageToken);
      }
      assert pages.Keys - (seen + {next}) == (pages.Keys - seen) - {next};
      seen, token, n := seen + {next}, next, n + 1;
    }
  }

  /** Everything a sweep may do, from its call to its return. */
  ghost predicate SweptInput(i: Input, c: Contents, d: Contents, error: Option<Error>, deleted: nat) {
    if i.maxAge <= 0 then d == c && error == Some(InvalidRequest) && deleted == 0
    else match Preflight(i.claims)
         case Err(e) => d == c && error == Some(e) && deleted == 0
         case Ok(withClaims) =>
           exists rows :: QueryYields(i.pages, rows) &&
             match rows
             case Err(e) => d == c && error == Some(e) && deleted == 0
             case Ok(listed) => Swept(RequestFor(i, listed, withClaims), c, d, error, deleted)
  }

  /** Every error but a failed delete is reported before anything changes. */
  lemma OnlyDeletionChanges(i: Input, c: Contents, d: Contents, error: Option<Error>, deleted: nat)
    requires SweptInput(i, c, d, error, deleted) && error.Some? && !error.value.DeleteFailed?
    ensures d == c && deleted == 0
  {
    if i.maxAge > 0 && Preflight(i.claims).Ok? {
      var rows :| QueryYields(i.pages, rows) &&
        match rows
        case Err(e) => d == c && error == Some(e) && deleted == 0
        case Ok(listed) => Swept(RequestFor(i, listed, Preflight(i.claims).value), c, d, error, deleted);
    }
  }

  // ---- The sweep itself ------------------------------------------------------------------------

  /** What a batch of delete calls did: all of them, or those before the failing one and
      perhaps the failing one too. Calls are numbered from the start of the store's life. */
  ghost predicate Performed(failAt: Option<nat>, failLands: bool, c: Contents, calls: nat, objects: seq<Object>,
                            d: Contents, calls': nat, ok: bool) {
    if ok then
      && (failAt.Some? ==> failAt.value < calls || failAt.value >= calls + |objects|)
      && d == Without(c, objects) && calls' == calls + |objects|
    else
      && failAt.Some? && calls <= failAt.value < calls + |objects| && calls' == failAt.value + 1
      && d == Without(c, objects[..failAt.value - calls + if failLands then 1 else 0])
  }

  lemma PerformedThen(failAt: Option<nat>, failLands: bool, c: Contents, calls: nat, a: seq<Object>, d: Contents, calls': nat,
                      b: seq<Object>, e: Contents, calls'': nat, ok: bool)
    requires Performed(failAt, failLands, c, calls, a, d, calls', true)
    requires Performed(failAt, failLands, d, calls', b, e, calls'', ok)
    ensures Performed(failAt, failLands, c, calls, a + b, e, calls'', ok)
  {
    if ok {
      WithoutTwice(c, a, b);
    } else {
      var n := failAt.value - calls' + if failLands then 1 else 0;
      WithoutTwice(c, a, b[..n]);
      assert (a + b)[..|a| + n] == a + b[..n];
    }
  }

  lemma PerformedStops(failAt: Option<nat>, failLands: bool, c: Contents, calls: nat, a: seq<Object>, b: seq<Object>,
                       d: Contents, calls': nat)
    requires Performed(failAt, failLands, c, calls, a, d, calls', false)
    ensures Performed(failAt, failLands, c, calls, a + b, d, calls', false)
  {
    var n := failAt.value - calls + if failLands then 1 else 0;
    assert (a + b)[..n] == a[..n];
  }

  lemma WithoutTwice(c: Contents, a: seq<Object>, b: seq<Object>)
    ensures Without(Without(c, a), b) == Without(c, a + b)
  {
    assert forall x :: x in a + b <==> x in a || x in b;
  }

  class RecordStore {
    var workflows: map<Run, Workflow>
    var children: set<ChildObject>
    var calls: nat
    const failAt: Option<nat>
    const failLands: bool

    constructor (workflows: map<Run, Workflow>, children: set<ChildObject>, failAt: Option<nat>, failLands: bool)
      ensures C() == Contents(workflows, children) && calls == 0
      ensures this.failAt == failAt && this.failLands == failLands
    {
      this.workflows, this.children, this.calls := workflows, children, 0;
      this.failAt, this.failLands := failAt, failLands;
    }

    ghost function C(): Contents reads this { Contents(workflows, children) }

    /** These calls, from the given earlier state to now. */
    ghost predicate Done(c: Contents, calls0: nat, objects: seq<Object>, ok: bool) reads this {
      Performed(failAt, failLands, c, calls0, objects, C(), calls, ok)
    }

    method Delete(x: Object) returns (ok: bool)
      modifies this
      ensures Done(old(C()), old(calls), [x], ok)
    {
      ok := failAt != Some(calls);
      calls := calls + 1;
      ghost var c := C();
      if ok || failLands {
        match x
        case Child(_, _) => children := children - {x};
        case RunRecord(run) => workflows := workflows - {run};
        assert C() == Without(c, [x]);
      } else {
        assert C() == Without(c, []);
      }
      assert !ok ==> [x][..failAt.value - old(calls) + if failLands then 1 else 0] == if failLands then [x] else [];
    }

    method DeleteChildren(kind: Kind, keys: seq<Key>) returns (ok: bool)
      modifies this
      ensures Done(old(C()), old(calls), Objects(kind, keys), ok)
    {
      ghost var all := Objects(kind, keys);
      assert C() == Without(C(), all[..0]);
      for i := 0 to |keys|
        invariant Done(old(C()), old(calls), all[..i], true)
      {
        ghost var d, n := C(), calls;
        ok := Delete(Child(kind, keys[i]));
        TakeSnoc(all, i);
        PerformedThen(failAt, failLands, old(C()), old(calls), all[..i], d, n, [all[i]], C(), calls, ok);
        if !ok {
          assert all == all[..i + 1] + all[i + 1..];
          PerformedStops(failAt, failLands, old(C()), old(calls), all[..i + 1], all[i + 1..], C(), calls);
          return false;
        }
      }
      assert all[..|keys|] == all;
      ok := true;
    }

    /** One more kind of children after the objects already deleted. */
    method DeleteNext(ghost c: Contents, ghost calls0: nat, ghost before: seq<Object>, kind: Kind, keys: seq<Key>)
      returns (ok: bool)
      requires Done(c, calls0, before, true)
      modifies this
      ensures Done(c, calls0, before + Objects(kind, keys), ok)
    {
      ghost var d, n := C(), calls;
      ok := DeleteChildren(kind, keys);
      PerformedThen(failAt, failLands, c, calls0, before, d, n, Objects(kind, keys), C(), calls, ok);
    }

    method DeleteRun(p: Plan) returns (ok: bool)
      modifies this
      ensures Done(old(C()), old(calls), ChildObjects(p) + [RunRecord(p.run)], ok)
    {
      ghost var c, n := C(), calls;
      ghost var a, b := Objects(Claim, p.claims), Objects(Activity, p.activities);
      ghost var t, e, w := Objects(Timer, p.timers), Objects(Event, p.events), [RunRecord(p.run)];
      assert C() == Without(c, []);
      ok := DeleteNext(c, n, [], Claim, p.claims);
      assert [] + a == a;
      if !ok { StopAt(c, n, a, b + t + e + w, p); return; }
      ok := DeleteNext(c, n, a, Activity, p.activities);
      if !ok { StopAt(c, n, a + b, t + e + w, p); return; }
      ok := DeleteNext(c, n, a + b, Timer, p.timers);
      if !ok { StopAt(c, n, a + b + t, e + w, p); return; }
      ok := DeleteNext(c, n, a + b + t, Event, p.events);
      if !ok { StopAt(c, n, a + b + t + e, w, p); return; }
      ghost var d, m := C(), calls;
      ok := Delete(RunRecord(p.run));
      PerformedThen(failAt, failLands, c, n, ChildObjects(p), d, m, w, C(), calls, ok);
    }

    lemma StopAt(c: Contents, n: nat, done: seq<Object>, rest: seq<Object>, p: Plan)
      requires Done(c, n, done, false) && done + rest == ChildObjects(p) + [RunRecord(p.run)]
      ensures Done(c, n, ChildObjects(p) + [RunRecord(p.run)], false)
    {
      PerformedStops(failAt, failLands, c, n, done, rest, C(), calls);
    }

    method CheckListed(keys: seq<Key>, run: Run) returns (ok: bool)
      ensures ok <==> AllOf(keys, run)
    {
      for i := 0 to |keys|
        invariant forall j :: 0 <= j < i ==> keys[j].run == run
      {
        if keys[i].run != run { return false; }
      }
      ok := true;
    }

    method SnapshotRun(r: Request, run: Run) returns (plan: Result<Plan, Error>)
      ensures plan == Snapshot(r, run)
    {
      var claims: seq<Key> := [];
      if r.withClaims {
        if (Claim, run) !in r.listed { return Err(ListFailed); }
        claims := r.listed[(Claim, run)];
      }
      if (Activity, run) !in r.listed { return Err(ListFailed); }
      if (Timer, run) !in r.listed { return Err(ListFailed); }
      if (Event, run) !in r.listed { return Err(ListFailed); }
      var activities, timers, events := r.listed[(Activity, run)], r.listed[(Timer, run)], r.listed[(Event, run)];
      var ok := CheckListed(claims, run);
      if !ok { return Err(DataLoss); }
      ok := CheckListed(activities, run);
      if !ok { return Err(DataLoss); }
      ok := CheckListed(timers, run);
      if !ok { return Err(DataLoss); }
      ok := CheckListed(events, run);
      if !ok { return Err(DataLoss); }
      plan := Ok(Plan(run, claims, activities, timers, events));
    }

    /** The planning pass; it reads and lists but changes nothing. */
    method PlanSweep(r: Request) returns (plans: Result<seq<Plan>, Error>)
      ensures plans == Plans(r, C(), r.rows)
    {
      var ps: seq<Plan>, seen: set<Run> := [], {};
      for i := 0 to |r.rows|
        invariant Plans(r, C(), r.rows[..i]) == Ok(ps)
        invariant forall run :: run in seen <==> Some(run) in r.rows[..i]
      {
        PlansSnoc(r, C(), i);
        assert ps + [] == ps;
        var row := r.rows[i];
        TakeSnoc(r.rows, i);
        if row.None? { return Err(DataLoss); }
        var run := row.value;
        if r.namespace.Some? && r.namespace.value != run.namespace { return Err(DataLoss); }
        if run in seen { return Err(DataLoss); }
        seen := seen + {run};
        if run in r.unreadable { return Err(ReadFailed); }
        if run !in workflows || !workflows[run].status.Completed? { continue; }
        if workflows[run].completedAt.None? { return Err(DataLoss); }
        if workflows[run].completedAt.value > r.now - r.maxAge { continue; }
        var plan := SnapshotRun(r, run);
        if plan.Err? { return Err(plan.error); }
        ps := ps + [plan.value];
      }
      assert r.rows[..|r.rows|] == r.rows;
      plans := Ok(ps);
    }

    /** Plan everything, then delete. */
    method SweepRows(r: Request) returns (deleted: nat, error: Option<Error>)
      modifies this
      ensures Swept(r, old(C()), C(), error, deleted)
    {
      deleted, error := 0, None;
      if r.maxAge <= 0 { return 0, Some(InvalidRequest); }
      var plans := PlanSweep(r);
      if plans.Err? { return 0, Some(plans.error); }
      var ps := plans.value;
      ghost var c, n := C(), calls;
      assert C() == Without(c, Order(ps[..0]));
      while deleted < |ps|
        invariant 0 <= deleted <= |ps| && Done(c, n, Order(ps[..deleted]), true)
      {
        var ok := DeletePlanned(c, n, ps, deleted);
        if !ok { return deleted, Some(DeleteFailed); }
        deleted := deleted + 1;
      }
      assert ps[..|ps|] == ps;
    }

    /** Preflight the claim store, list every completed run, and sweep what was listed. */
    method Sweep(input: Input) returns (deleted: nat, error: Option<Error>)
      modifies this
      ensures SweptInput(input, old(C()), C(), error, deleted)
    {
      if input.maxAge <= 0 { return 0, Some(InvalidRequest); }
      var withClaims := Preflight(input.claims);
      if withClaims.Err? { return 0, Some(withClaims.error); }
      var rows := ListCompleted(input.pages);
      if rows.Err? { return 0, Some(rows.error); }
      deleted, error := SweepRows(RequestFor(input, rows.value, withClaims.value));
    }

    method DeletePlanned(ghost c: Contents, ghost n: nat, ps: seq<Plan>, i: nat) returns (ok: bool)
      requires i < |ps| && Done(c, n, Order(ps[..i]), true)
      modifies this
      ensures ok ==> Done(c, n, Order(ps[..i + 1]), true)
      ensures !ok ==> exists m: nat :: CutWithin(ps, i, m) && C() == Without(c, Order(ps)[..m])
    {
      ghost var d, m := C(), calls;
      ok := DeleteRun(ps[i]);
      ghost var own := ChildObjects(ps[i]) + [RunRecord(ps[i].run)];
      PerformedThen(failAt, failLands, c, n, Order(ps[..i]), d, m, own, C(), calls, ok);
      OrderPrefix(ps, i);
      if !ok {
        ghost var reached := failAt.value - n + if failLands then 1 else 0;
        assert (Order(ps[..i]) + own)[..reached] == Order(ps)[..reached];
        assert CutWithin(ps, i, reached);
      }
    }
  }

  lemma PlansSnoc(r: Request, c: Contents, i: nat)
    requires i < |r.rows|
    ensures Plans(r, c, r.rows[..i + 1]) ==
            match Plans(r, c, r.rows[..i])
            case Err(e) => Err(e)
            case Ok(ps) =>
              match PlanRow(r, c, r.rows[..i], r.rows[i])
              case Err(e) => Err(e)
              case Ok(more) => Ok(ps + more)
    ensures Plans(r, c, r.rows[..i + 1]).Err? ==> Plans(r, c, r.rows) == Plans(r, c, r.rows[..i + 1])
  {
    assert r.rows[..i + 1][..|r.rows[..i + 1]| - 1] == r.rows[..i];
    if Plans(r, c, r.rows[..i + 1]).Err? { FirstErrorStays(r, c, r.rows, i + 1); }
  }

  lemma {:induction false} FirstErrorStays(r: Request, c: Contents, rows: seq<Option<Run>>, i: nat)
    requires i <= |rows| && Plans(r, c, rows[..i]).Err?
    ensures Plans(r, c, rows) == Plans(r, c, rows[..i])
    decreases |rows|
  {
    if i == |rows| {
      assert rows[..i] == rows;
    } else {
      assert rows[..|rows| - 1][..i] == rows[..i];
      FirstErrorStays(r, c, rows[..|rows| - 1], i);
    }
  }

  lemma {:induction false} OrderPrefix(ps: seq<Plan>, i: nat)
    requires i < |ps|
    ensures Order(ps[..i + 1]) == Order(ps[..i]) + (ChildObjects(ps[i]) + [RunRecord(ps[i].run)])
    ensures Order(ps[..i + 1]) <= Order(ps)
    decreases |ps|
  {
    assert ps[..i + 1][..|ps[..i + 1]| - 1] == ps[..i];
    if i + 1 == |ps| {
      assert ps[..i + 1] == ps;
    } else {
      var front := ps[..|ps| - 1];
      OrderPrefix(front, i);
      assert front[..i + 1] == ps[..i + 1];
    }
  }
}

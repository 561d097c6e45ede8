/** Cursor pagination over a bucket listing: the workflow directory, which reads pointers in
    batches until a page is full or its read budget is spent, and the runs of one workflow,
    which slice a sorted listing in either direction. A page token is the last name processed. */
module Directory {
  import opened Basics

  type Name = int
  type Status = nat

  // What reading a listed object yields; an object without a trustworthy identity yields nothing.
  datatype Entry = Entry(name: Name, pointerStatus: Status, runStatus: Option<Status>)

  datatype Page = Page(entries: seq<Entry>, scanned: nat, next: Option<Name>)

  datatype Error = TooManyObjects

  /** What the objects hold, which entries are wanted, and the limits of one page: at most
      `room` entries and at most `budget` objects read. */
  datatype Terms = Terms(entries: map<Name, Entry>, want: Option<Status>, room: int, budget: int)

  /** A listing in presentation order, and the terms on which it is paged. */
  datatype Query = Query(ascending: bool, names: seq<Name>, terms: Terms)

  predicate Past(ascending: bool, cursor: Option<Name>, x: Name) {
    cursor.None? || if ascending then x > cursor.value else x < cursor.value
  }

  ghost predicate Ordered(ascending: bool, s: seq<Name>) {
    forall i, j :: 0 <= i < j < |s| ==> Past(ascending, Some(s[i]), s[j])
  }

  predicate StatusMatches(e: Entry, want: Option<Status>) {
    want.None? || (if e.runStatus.Some? then e.runStatus.value else e.pointerStatus) == want.value
  }

  predicate Hit(t: Terms, x: Name) { x in t.entries && StatusMatches(t.entries[x], t.want) }

  /** The filtered listing. */
  function Hits(t: Terms, s: seq<Name>): seq<Entry> {
    if s == [] then []
    else
      var front, last := s[..|s| - 1], s[|s| - 1];
      Hits(t, front) + if Hit(t, last) then [t.entries[last]] else []
  }

  function Remaining(ascending: bool, s: seq<Name>, cursor: Option<Name>): seq<Name> {
    if s == [] then []
    else
      var front, last := s[..|s| - 1], s[|s| - 1];
      Remaining(ascending, front, cursor) + if Past(ascending, cursor, last) then [last] else []
  }

  predicate Full(t: Terms, rest: seq<Name>, n: nat)
    requires n <= |rest|
  {
    n == |rest| || |Hits(t, rest[..n])| >= t.room || n >= t.budget
  }

  /** How far a page reads once it has read `n` names of the rest. */
  function ReadsTo(t: Terms, rest: seq<Name>, n: nat): (m: nat)
    requires n <= |rest|
    ensures n <= m <= |rest| && Full(t, rest, m) && (m > n ==> !Full(t, rest, m - 1))
    decreases |rest| - n
  {
    if Full(t, rest, n) then n else ReadsTo(t, rest, n + 1)
  }

  // A cursor that never moved seals to the empty token, which means "no more pages".
  function PageOf(t: Terms, rest: seq<Name>, n: nat): Page
    requires n <= |rest|
  {
    Page(Hits(t, rest[..n]), n, if 0 < n < |rest| then Some(rest[n - 1]) else None)
  }

  function PageAt(q: Query, cursor: Option<Name>): Page {
    var rest := Remaining(q.ascending, q.names, cursor);
    PageOf(q.terms, rest, ReadsTo(q.terms, rest, 0))
  }

  // ---- Cursors and positions -----------------------------------------------------------------

  /** A cursor splits an ordered listing at the point where names start to lie past it. */
  lemma {:induction false} RemainingIsSuffix(ascending: bool, s: seq<Name>, cursor: Option<Name>, k: nat)
    requires k <= |s|
    requires forall i :: 0 <= i < k ==> !Past(ascending, cursor, s[i])
    requires forall i :: k <= i < |s| ==> Past(ascending, cursor, s[i])
    ensures Remaining(ascending, s, cursor) == s[k..]
  {
    if s != [] {
      var front := s[..|s| - 1];
      RemainingIsSuffix(ascending, front, cursor, if k <= |front| then k else |front|);
      if k < |s| { assert s[k..] == front[k..] + [s[|s| - 1]]; }
    }
  }

  lemma {:induction false} SuffixPoint(ascending: bool, s: seq<Name>, cursor: Option<Name>) returns (k: nat)
    requires Ordered(ascending, s)
    ensures k <= |s| && Remaining(ascending, s, cursor) == s[k..]
    ensures forall i :: 0 <= i < k ==> !Past(ascending, cursor, s[i])
    ensures forall i :: k <= i < |s| ==> Past(ascending, cursor, s[i])
  {
    k := 0;
    while k < |s| && !Past(ascending, cursor, s[k])
      invariant k <= |s| && forall i :: 0 <= i < k ==> !Past(ascending, cursor, s[i])
    {
      k := k + 1;
    }
    forall i | k <= i < |s| ensures Past(ascending, cursor, s[i]) {
      if i > k { assert Past(ascending, Some(s[k]), s[i]); }
    }
    RemainingIsSuffix(ascending, s, cursor, k);
  }

  /** The token of a page that read `n` names leaves exactly the names it did not read. */
  lemma TokenResumes(ascending: bool, s: seq<Name>, cursor: Option<Name>, n: nat)
    requires Ordered(ascending, s) && 0 < n <= |Remaining(ascending, s, cursor)|
    ensures var rest := Remaining(ascending, s, cursor);
            Remaining(ascending, s, Some(rest[n - 1])) == rest[n..]
  {
    var k := SuffixPoint(ascending, s, cursor);
    var last := s[k + n - 1];
    forall i | 0 <= i < |s| ensures Past(ascending, Some(last), s[i]) <==> i >= k + n {
      if i < k + n - 1 { assert Past(ascending, Some(s[i]), last); }
      if i > k + n - 1 { assert Past(ascending, Some(last), s[i]); }
    }
    RemainingIsSuffix(ascending, s, Some(last), k + n);
  }

  // ---- Following the tokens ------------------------------------------------------------------

  /** Every page a client gets by following tokens. That this ends is part of its definition. */
  function Follow(q: Query, cursor: Option<Name>): seq<Page>
    requires Ordered(q.ascending, q.names)
    decreases |Remaining(q.ascending, q.names, cursor)|
  {
    var page := PageAt(q, cursor);
    if page.next.None? then [page]
    else
      TokenResumes(q.ascending, q.names, cursor, page.scanned);
      [page] + Follow(q, page.next)
  }

  function AllEntries(pages: seq<Page>): seq<Entry> {
    if pages == [] then [] else pages[0].entries + AllEntries(pages[1..])
  }

  lemma {:induction false} HitsSplit(t: Terms, a: seq<Name>, b: seq<Name>)
    ensures Hits(t, a + b) == Hits(t, a) + Hits(t, b)
  {
    if b == [] {
      assert a + b == a;
    } else {
      HitsSplit(t, a, b[..|b| - 1]);
      assert (a + b)[..|a + b| - 1] == a + b[..|b| - 1];
    }
  }

  /** One page reads a prefix of what is left; with positive limits it reads something, and
      carries a token exactly while names are left. */
  lemma PageFacts(q: Query, cursor: Option<Name>)
    ensures var rest, page := Remaining(q.ascending, q.names, cursor), PageAt(q, cursor);
            && page.scanned <= |rest| && page.entries == Hits(q.terms, rest[..page.scanned])
            && |page.entries| <= (if q.terms.room > 0 then q.terms.room else 0)
            && page.scanned <= (if q.terms.budget > 0 then q.terms.budget else 0)
            && (page.next.Some? ==> 0 < page.scanned < |rest| && page.next.value == rest[page.scanned - 1])
            && (page.next.None? ==> page.scanned == |rest| || q.terms.room <= 0 || q.terms.budget <= 0)
  {
    var rest, n := Remaining(q.ascending, q.names, cursor), PageAt(q, cursor).scanned;
    assert rest[..0] == [];
    if n > 0 {
      TakeSnoc(rest, n - 1);
      assert rest[..n][..n - 1] == rest[..n - 1];
    }
  }

  lemma FollowUnfolds(q: Query, cursor: Option<Name>)
    requires Ordered(q.ascending, q.names)
    ensures var page := PageAt(q, cursor);
            if page.next.None? then Follow(q, cursor) == [page] && AllEntries(Follow(q, cursor)) == page.entries
            else Follow(q, cursor) == [page] + Follow(q, page.next)
                 && AllEntries(Follow(q, cursor)) == page.entries + AllEntries(Follow(q, page.next))
  {
    var page := PageAt(q, cursor);
    if page.next.None? {
      assert AllEntries([page]) == page.entries + AllEntries([]);
    } else {
      assert ([page] + Follow(q, page.next))[1..] == Follow(q, page.next);
    }
  }

  lemma {:induction false} FollowedPagesAreTheListing(q: Query, cursor: Option<Name>, rest: seq<Name>)
    requires Ordered(q.ascending, q.names) && q.terms.room > 0 && q.terms.budget > 0
    requires rest == Remaining(q.ascending, q.names, cursor)
    ensures AllEntries(Follow(q, cursor)) == Hits(q.terms, rest)
    decreases |rest|
  {
    var page := PageAt(q, cursor);
    PageFacts(q, cursor);
    FollowUnfolds(q, cursor);
    if page.next.None? {
      assert rest[..page.scanned] == rest;
    } else {
      TokenResumes(q.ascending, q.names, cursor, page.scanned);
      FollowedPagesAreTheListing(q, page.next, rest[page.scanned..]);
      assert rest == rest[..page.scanned] + rest[page.scanned..];
      HitsSplit(q.terms, rest[..page.scanned], rest[page.scanned..]);
    }
  }

  /** The concatenated pages are the whole filtered listing, in order, without skip or repeat,
      exactly when both limits are positive (or there is nothing to list): a limit that is not
      positive ends the listing silently on an empty first page. */
  lemma PagesAreCompleteExactly(q: Query)
    requires Ordered(q.ascending, q.names)
    ensures AllEntries(Follow(q, None)) == Hits(q.terms, q.names) <==>
            (q.terms.room > 0 && q.terms.budget > 0) || Hits(q.terms, q.names) == []
  {
    RemainingIsSuffix(q.ascending, q.names, None, 0);
    if q.terms.room > 0 && q.terms.budget > 0 {
      FollowedPagesAreTheListing(q, None, q.names);
    } else {
      assert Full(q.terms, q.names, 0);
      assert PageAt(q, None) == Page(Hits(q.terms, q.names[..0]), 0, None);
      FollowUnfolds(q, None);
    }
  }

  /** Every page on the way keeps both limits. */
  lemma {:induction false} PagesKeepLimits(q: Query, cursor: Option<Name>, rest: seq<Name>, page: Page)
    requires Ordered(q.ascending, q.names) && page in Follow(q, cursor)
    requires rest == Remaining(q.ascending, q.names, cursor)
    ensures |page.entries| <= (if q.terms.room > 0 then q.terms.room else 0)
    ensures page.scanned <= if q.terms.budget > 0 then q.terms.budget else 0
    decreases |rest|
  {
    var first := PageAt(q, cursor);
    PageFacts(q, cursor);
    FollowUnfolds(q, cursor);
    if page != first {
      TokenResumes(q.ascending, q.names, cursor, first.scanned);
      PagesKeepLimits(q, first.next, rest[first.scanned..], page);
    }
  }

  // ---- The directory page ----------------------------------------------------------------------

  datatype Limits = Limits(defaultPageSize: int, maxPageSize: int, readBudget: int, maxListedRuns: int,
                           maxListedObjects: int, concurrency: int)

  function PageSize(requested: nat, limits: Limits): int {
    var size := if requested == 0 then limits.defaultPageSize else requested;
    if size < limits.maxPageSize then size else limits.maxPageSize
  }

  /** The pointer objects under the requested prefix, in listing order. */
  function Selected(names: seq<Name>, suitable: set<Name>): seq<Name> {
    if names == [] then []
    else
      var front, last := names[..|names| - 1], names[|names| - 1];
      Selected(front, suitable) + if last in suitable then [last] else []
  }

  lemma CandidateSnoc(names: seq<Name>, i: nat, suitable: set<Name>, cursor: Option<Name>)
    requires i < |names|
    ensures Remaining(true, Selected(names[..i + 1], suitable), cursor) ==
            Remaining(true, Selected(names[..i], suitable), cursor)
            + if names[i] in suitable && Past(true, cursor, names[i]) then [names[i]] else []
  {
    TakeSnoc(names, i);
    assert names[..i + 1][..|names[..i + 1]| - 1] == names[..i];
    var before, after := Selected(names[..i], suitable), Selected(names[..i + 1], suitable);
    if names[i] in suitable {
      assert after == before + [names[i]] && after[..|after| - 1] == before;
    } else {
      assert after == before;
    }
  }

  method Candidates(names: seq<Name>, suitable: set<Name>, cursor: Option<Name>) returns (rest: seq<Name>)
    ensures rest == Remaining(true, Selected(names, suitable), cursor)
  {
    rest := [];
    for i := 0 to |names|
      invariant rest == Remaining(true, Selected(names[..i], suitable), cursor)
    {
      CandidateSnoc(names, i, suitable, cursor);
      if names[i] in suitable && Past(true, cursor, names[i]) { rest := rest + [names[i]]; }
    }
    assert names[..|names|] == names;
  }

  lemma HitsSnoc(t: Terms, s: seq<Name>, n: nat)
    requires n < |s|
    ensures Hits(t, s[..n + 1]) == Hits(t, s[..n]) + if Hit(t, s[n]) then [t.entries[s[n]]] else []
  {
    TakeSnoc(s, n);
    assert s[..n + 1][..|s[..n + 1]| - 1] == s[..n];
  }

  // ---- One iteration of the batch loop ------------------------------------------------------

  // What the loop has found and how many names it has processed.
  datatype Scan = Scan(found: seq<Entry>, next: nat)

  /** How a listing call ends: with a page or an error, never, or in a panic. */
  datatype Listing<+P> = Returned(result: Result<P, Error>) | LoopsForever | SliceOutOfRange

  predicate LoopGuard(t: Terms, rest: seq<Name>, scan: Scan) {
    scan.next < |rest| && |scan.found| < t.room && scan.next < t.budget
  }

  function Min(a: int, b: int): int { if a < b then a else b }

  /** Where the batch starting at `next` ends: before `next` for a negative concurrency. */
  function BatchEnd(t: Terms, rest: seq<Name>, concurrency: int, next: nat): int {
    Min(next + concurrency, Min(|rest|, t.budget))
  }

  /** The entries of a batch are taken in order until the page is full. */
  function Taken(t: Terms, rest: seq<Name>, scan: Scan, end: nat): Scan
    requires end <= |rest|
    decreases end - scan.next
  {
    if scan.next >= end || |scan.found| == t.room then scan
    else
      var x := rest[scan.next];
      Taken(t, rest, Scan(scan.found + (if Hit(t, x) then [t.entries[x]] else []), scan.next + 1), end)
  }

  function Iterate(t: Terms, rest: seq<Name>, concurrency: int, scan: Scan): Option<Scan> {
    var end := BatchEnd(t, rest, concurrency, scan.next);
    if end < scan.next then None else Some(Taken(t, rest, scan, end))
  }

  lemma {:induction false} TakenMoves(t: Terms, rest: seq<Name>, scan: Scan, end: nat)
    requires end <= |rest|
    ensures Taken(t, rest, scan, end).next >= scan.next
    ensures scan.next < end && |scan.found| != t.room ==> Taken(t, rest, scan, end).next > scan.next
    decreases end - scan.next
  {
    if scan.next < end && |scan.found| != t.room {
      var x := rest[scan.next];
      TakenMoves(t, rest, Scan(scan.found + (if Hit(t, x) then [t.entries[x]] else []), scan.next + 1), end);
    }
  }

  /** While the loop goes on, an iteration advances exactly for a positive concurrency, changes
      nothing exactly for zero, and slices out of range exactly for a negative one. */
  lemma IterationAdvancesExactly(t: Terms, rest: seq<Name>, concurrency: int, scan: Scan)
    requires LoopGuard(t, rest, scan)
    ensures var after := Iterate(t, rest, concurrency, scan);
            && (after.Some? && after.value.next > scan.next <==> concurrency > 0)
            && (after == Some(scan) <==> concurrency == 0)
            && (after.None? <==> concurrency < 0)
  {
    if concurrency >= 0 { TakenMoves(t, rest, scan, BatchEnd(t, rest, concurrency, scan.next)); }
  }

  /** The state after `n` more iterations; leaving the loop or panicking yields none. */
  function Iterations(t: Terms, rest: seq<Name>, concurrency: int, scan: Scan, n: nat): Option<Scan> {
    if n == 0 then Some(scan)
    else match Iterations(t, rest, concurrency, scan, n - 1)
         case None => None
         case Some(s) => if LoopGuard(t, rest, s) then Iterate(t, rest, concurrency, s) else None
  }

  /** With no concurrency the loop is never left: after any number of iterations it stands where
      it stood and its guard still holds. */
  lemma {:induction false} NoConcurrencyNeverEnds(t: Terms, rest: seq<Name>, scan: Scan, n: nat)
    requires LoopGuard(t, rest, scan)
    ensures Iterations(t, rest, 0, scan, n) == Some(scan)
  {
    if n > 0 {
      NoConcurrencyNeverEnds(t, rest, scan, n - 1);
      IterationAdvancesExactly(t, rest, 0, scan);
    }
  }

  /** What a batch takes continues the page: the hits of a longer prefix, on the way to where
      the page ends. */
  lemma {:induction false} TakenContinuesPage(t: Terms, rest: seq<Name>, n: nat, end: nat)
    requires n <= end <= |rest| && end <= t.budget && |Hits(t, rest[..n])| <= t.room
    ensures var scan := Taken(t, rest, Scan(Hits(t, rest[..n]), n), end);
            && n <= scan.next <= end && scan.found == Hits(t, rest[..scan.next]) && |scan.found| <= t.room
            && ReadsTo(t, rest, scan.next) == ReadsTo(t, rest, n)
    decreases end - n
  {
    if n < end && |Hits(t, rest[..n])| != t.room {
      HitsSnoc(t, rest, n);
      assert !Full(t, rest, n);
      TakenContinuesPage(t, rest, n + 1, end);
    }
  }

  /** One batch: its objects are all read first, then taken in order until the page is full. */
  method TakeBatch(t: Terms, rest: seq<Name>, from: nat, end: nat, entries0: seq<Entry>)
    returns (entries: seq<Entry>, next: nat)
    requires from < end <= |rest| && |entries0| < t.room
    ensures Scan(entries, next) == Taken(t, rest, Scan(entries0, from), end)
  {
    var batch := seq(end - from, i requires 0 <= i < end - from =>
      if rest[from + i] in t.entries then Some(t.entries[rest[from + i]]) else None);
    entries, next := entries0, from;
    while next < end
      invariant from <= next <= end
      invariant Taken(t, rest, Scan(entries, next), end) == Taken(t, rest, Scan(entries0, from), end)
    {
      if |entries| == t.room { break; }
      var entry := batch[next - from];
      assert entries + [] == entries;
      next := next + 1;
      if entry.Some? && StatusMatches(entry.value, t.want) { entries := entries + [entry.value]; }
    }
  }

  method ListWorkflowDirectory(names: seq<Name>, suitable: set<Name>, entries: map<Name, Entry>, want: Option<Status>,
                               requested: nat, limits: Limits, cursor: Option<Name>)
    returns (r: Listing<Page>)
    ensures var q := Query(true, Selected(names, suitable),
                           Terms(entries, want, PageSize(requested, limits), limits.readBudget));
            r == if |names| > limits.maxListedObjects then Returned(Err(TooManyObjects))
                 else if limits.concurrency > 0 || !LoopGuard(q.terms, Remaining(true, q.names, cursor), Scan([], 0))
                 then Returned(Ok(PageAt(q, cursor)))
                 else if limits.concurrency == 0 then LoopsForever else SliceOutOfRange
  {
    if |names| > limits.maxListedObjects { return Returned(Err(TooManyObjects)); }
    var rest := Candidates(names, suitable, cursor);
    var t := Terms(entries, want, PageSize(requested, limits), limits.readBudget);
    var page := ReadPage(t, rest, limits.concurrency);
    return page;
  }

  method ReadPage(t: Terms, rest: seq<Name>, concurrency: int) returns (r: Listing<Page>)
    ensures r == if concurrency > 0 || !LoopGuard(t, rest, Scan([], 0)) then Returned(Ok(PageOf(t, rest, ReadsTo(t, rest, 0))))
                 else if concurrency == 0 then LoopsForever else SliceOutOfRange
  {
    var found: seq<Entry>, next := [], 0;
    while next < |rest| && |found| < t.room && next < t.budget
      invariant 0 <= next <= |rest| && found == Hits(t, rest[..next])
      invariant ReadsTo(t, rest, next) == ReadsTo(t, rest, 0)
      invariant concurrency > 0 || (next == 0 && found == [])
    {
      var end := BatchEnd(t, rest, concurrency, next);
      if end < next { return SliceOutOfRange; }
      // An empty batch leaves everything as it was: `NoConcurrencyNeverEnds`.
      if end == next { return LoopsForever; }
      TakenContinuesPage(t, rest, next, end);
      TakenMoves(t, rest, Scan(found, next), end);
      found, next := TakeBatch(t, rest, next, end, found);
    }
    assert Full(t, rest, next);
    r := Returned(Ok(Page(found, next, if 0 < next < |rest| then Some(rest[next - 1]) else None)));
  }

  // ---- The runs of one workflow -----------------------------------------------------------------

  function Reversed(s: seq<Name>): (r: seq<Name>)
    ensures |r| == |s| && forall i :: 0 <= i < |s| ==> r[i] == s[|s| - 1 - i]
  {
    if s == [] then [] else [s[|s| - 1]] + Reversed(s[..|s| - 1])
  }

  /** `sort.Search`: the first position past the cursor, by bisection. */
  method Search(ascending: bool, s: seq<Name>, cursor: Option<Name>) returns (start: nat)
    requires Ordered(ascending, s)
    ensures start <= |s| && Remaining(ascending, s, cursor) == s[start..]
  {
    ghost var k := SuffixPoint(ascending, s, cursor);
    var lo, hi := 0, |s|;
    while lo < hi
      invariant 0 <= lo <= k <= hi <= |s|
    {
      var mid := (lo + hi) / 2;
      if Past(ascending, cursor, s[mid]) { hi := mid; } else { lo := mid + 1; }
    }
    start := lo;
  }

  datatype RunsPage = RunsPage(runs: seq<Entry>, withoutRecord: int, total: nat, next: Option<Name>)

  /** The listed directories in the asked direction. */
  function Presented(listed: seq<Name>, ascending: bool): seq<Name> { if ascending then listed else Reversed(listed) }

  /** Here the page size bounds the directories read, and directories without a workflow
      record are counted instead of listed. */
  function RunsListing(q: Query, maxListed: int, cursor: Option<Name>): Listing<RunsPage> {
    if |q.names| > maxListed then Returned(Err(TooManyObjects))
    else if q.terms.budget < 0 then SliceOutOfRange
    else Returned(Ok(RunsPageOf(PageAt(q, cursor), |q.names|)))
  }

  function RunsPageOf(p: Page, total: nat): RunsPage { RunsPage(p.entries, p.scanned - |p.entries|, total, p.next) }

  /** The page of the query, or a slice out of range exactly when the page size is negative, even
      of an empty listing. */
  method ListWorkflowRuns(children: seq<Name>, directories: set<Name>, entries: map<Name, Entry>, ascending: bool,
                          requested: nat, limits: Limits, cursor: Option<Name>)
    returns (r: Listing<RunsPage>)
    requires Ordered(true, children)
    ensures var names := Presented(Selected(children, directories), ascending);
            var q := Query(ascending, names, Terms(entries, None, |names| + 1, PageSize(requested, limits)));
            r == RunsListing(q, limits.maxListedRuns, cursor) && Ordered(ascending, names)
  {
    var names := RunDirectories(children, directories, ascending);
    var q := Query(ascending, names, Terms(entries, None, |names| + 1, PageSize(requested, limits)));
    r := SlicePage(q, limits.maxListedRuns, cursor);
  }

  method SlicePage(q: Query, maxListed: int, cursor: Option<Name>) returns (r: Listing<RunsPage>)
    requires Ordered(q.ascending, q.names) && q.terms.want.None? && q.terms.room > |q.names|
    ensures r == RunsListing(q, maxListed, cursor)
  {
    if |q.names| > maxListed { return Returned(Err(TooManyObjects)); }
    var start := FindStart(q.ascending, q.names, cursor);
    r := SliceFrom(q.terms, q.names, start);
    if q.terms.budget >= 0 { SlicedPage(q, cursor, start); }
  }

  method FindStart(ascending: bool, names: seq<Name>, cursor: Option<Name>) returns (start: nat)
    requires Ordered(ascending, names)
    ensures start <= |names| && Remaining(ascending, names, cursor) == names[start..]
  {
    if cursor.None? {
      RemainingIsSuffix(ascending, names, None, 0);
      return 0;
    }
    start := Search(ascending, names, cursor);
  }

  /** A page that starts at `start` reads its whole budget, or all that is left. */
  lemma SlicedPage(q: Query, cursor: Option<Name>, start: nat)
    requires start <= |q.names| && Remaining(q.ascending, q.names, cursor) == q.names[start..]
    requires q.terms.room > |q.names| && q.terms.budget >= 0
    ensures PageAt(q, cursor) == PageOf(q.terms, q.names[start..], Min(q.terms.budget, |q.names| - start))
  {
    ReadsWholeBudget(q.terms, q.names[start..], 0);
  }

  /** The slice `start .. min(start + size, length)` and its records. */
  method SliceFrom(t: Terms, names: seq<Name>, start: nat) returns (r: Listing<RunsPage>)
    requires start <= |names| && t.want.None?
    ensures t.budget < 0 <==> r == SliceOutOfRange
    ensures t.budget >= 0 ==>
              r == Returned(Ok(RunsPageOf(PageOf(t, names[start..], Min(t.budget, |names| - start)), |names|)))
  {
    var end := Min(start + t.budget, |names|);
    if end < start { return SliceOutOfRange; }
    var rest, size := names[start..], end - start;
    var runs, missing := ReadRuns(t, rest, size);
    r := Returned(Ok(RunsPage(runs, missing, |names|, if end < |names| && size > 0 then Some(rest[size - 1]) else None)));
  }

  method RunDirectories(children: seq<Name>, directories: set<Name>, ascending: bool) returns (names: seq<Name>)
    requires Ordered(true, children)
    ensures Ordered(ascending, names)
    ensures names == Presented(Selected(children, directories), ascending)
  {
    names := Candidates(children, directories, None);
    SelectedOrdered(children, directories);
    RemainingIsSuffix(true, Selected(children, directories), None, 0);
    if !ascending { names := Reversed(names); }
  }

  method ReadRuns(t: Terms, rest: seq<Name>, size: nat) returns (runs: seq<Entry>, missing: int)
    requires size <= |rest| && t.want.None?
    ensures runs == Hits(t, rest[..size]) && missing == size - |runs|
  {
    runs, missing := [], 0;
    for i := 0 to size
      invariant runs == Hits(t, rest[..i]) && missing == i - |runs|
    {
      HitsSnoc(t, rest, i);
      if rest[i] in t.entries { runs := runs + [t.entries[rest[i]]]; } else { missing := missing + 1; }
    }
  }

  lemma {:induction false} SelectedOrdered(names: seq<Name>, suitable: set<Name>)
    requires Ordered(true, names)
    ensures Ordered(true, Selected(names, suitable))
    ensures forall x :: x in Selected(names, suitable) <==> x in names && x in suitable
  {
    if names != [] {
      var front, last := names[..|names| - 1], names[|names| - 1];
      SelectedOrdered(front, suitable);
      forall i | 0 <= i < |Selected(front, suitable)| ensures Selected(front, suitable)[i] < last {
        var x := Selected(front, suitable)[i];
        assert x in front;
        var j :| 0 <= j < |front| && front[j] == x;
        assert Past(true, Some(names[j]), names[|names| - 1]);
      }
      assert forall x :: x in names <==> x in front || x == last;
    }
  }

  lemma {:induction false} HitsBound(t: Terms, s: seq<Name>)
    ensures |Hits(t, s)| <= |s|
  {
    if s != [] { HitsBound(t, s[..|s| - 1]); }
  }

  /** With more room than names, a page reads its whole budget or everything. */
  lemma {:induction false} ReadsWholeBudget(t: Terms, rest: seq<Name>, n: nat)
    requires n <= |rest| < t.room && (n == 0 || n <= t.budget)
    ensures ReadsTo(t, rest, n) == if t.budget <= n then n else if t.budget < |rest| then t.budget else |rest|
    decreases |rest| - n
  {
    HitsBound(t, rest[..n]);
    if n < |rest| && n < t.budget { ReadsWholeBudget(t, rest, n + 1); }
  }
}

/** Retry policies and their backoff arithmetic (`planRetries`, `nextInterval`,
    `normalizeRetryPolicy`). Durations are nanoseconds; a policy field may lie
    outside the signed 64-bit range that Go durations cover. */
module RetryPolicies {
  import opened Basics
  import opened Sorting

  const MAXIMUM_RETRY_ATTEMPTS := 100
  const MAX_INT64 := 0x7FFF_FFFF_FFFF_FFFF
  const MIN_INT64 := -0x8000_0000_0000_0000

  // Error codes are opaque ordered values.
  type Code = int

  datatype RetryPolicy = RetryPolicy(
    initialInterval: Option<int>,
    backoffCoefficient: real,
    maximumInterval: Option<int>,
    maximumAttempts: nat,
    nonRetryableErrorCodes: seq<Code>,
    durableBackoffThreshold: Option<int>)

  datatype RetryPlan = RetryPlan(
    maxAttempts: nat,
    initialInterval: int,
    backoffCoefficient: real,
    maximumInterval: int,
    durableThreshold: int,
    nonRetryable: set<Code>)

  datatype PlanError =
    | RetryTimerIdRequired
    | DurationOutOfRange
    | AttemptsNotPositive
    | TooManyAttempts
    | NegativeInterval
    | IntervalRequired
    | CoefficientNotPositive
    | MaximumBelowInitial
    | IntervalOutOfRange
    | IntervalNotPositive
    | ZeroOrdinal

  /** `retryPolicyDuration`: an absent field is zero, a value Go would clamp is refused. */
  function PolicyDuration(value: Option<int>): Result<int, PlanError> {
    match value
    case None => Ok(0)
    case Some(d) => if MIN_INT64 <= d <= MAX_INT64 then Ok(d) else Err(DurationOutOfRange)
  }

  /** `nextInterval`: multiply, cap, refuse what overflows or truncates to nothing. */
  function NextInterval(prev: int, plan: RetryPlan): Result<int, PlanError> {
    Bounded(Scaled(prev as real, plan.backoffCoefficient), prev, plan.maximumInterval)
  }

  function Scaled(x: real, c: real): real { x * c }

  function Bounded(product: real, prev: int, maximum: int): Result<int, PlanError> {
    if maximum > 0 && product >= maximum as real then Ok(maximum)
    else if product > MAX_INT64 as real then Err(IntervalOutOfRange)
    else
      var next := Truncated(product);
      if prev > 0 && next <= 0 then Err(IntervalNotPositive) else Ok(next)
  }

  /** Go's conversion of a floating value to an integer drops the fraction toward zero. */
  function Truncated(x: real): int {
    if x >= 0.0 then x.Floor else -((-x).Floor)
  }

  /** The schedule by ordinal: what the loop of `retryIntervalAfterAttempt` computes. */
  function IntervalAfter(attempt: nat, plan: RetryPlan): Result<int, PlanError> {
    if attempt == 0 then Err(ZeroOrdinal)
    else if attempt == 1 then Ok(plan.initialInterval)
    else
      match IntervalAfter(attempt - 1, plan)
      case Err(e) => Err(e)
      case Ok(prev) => NextInterval(prev, plan)
  }

  method RetryIntervalAfterAttempt(attempt: nat, plan: RetryPlan) returns (r: Result<int, PlanError>)
    ensures r == IntervalAfter(attempt, plan)
  {
    if attempt == 0 { return Err(ZeroOrdinal); }
    var interval := plan.initialInterval;
    var ordinal := 1;
    while ordinal < attempt
      invariant 1 <= ordinal <= attempt
      invariant IntervalAfter(ordinal, plan) == Ok(interval)
    {
      var next := NextInterval(interval, plan);
      if next.Err? {
        FailureSticks(ordinal + 1, attempt, plan);
        return next;
      }
      interval := next.value;
      ordinal := ordinal + 1;
    }
    return Ok(interval);
  }

  /** Once one ordinal has no interval, no later ordinal has one. */
  lemma {:induction false} FailureSticks(early: nat, late: nat, plan: RetryPlan)
    requires early <= late && IntervalAfter(early, plan).Err?
    requires early > 0
    ensures IntervalAfter(late, plan) == IntervalAfter(early, plan)
    decreases late
  {
    if early < late { FailureSticks(early, late - 1, plan); }
  }

  predicate ScheduleComputable(plan: RetryPlan) {
    forall n :: 1 <= n < plan.maxAttempts ==> IntervalAfter(n, plan).Ok?
  }

  /** `validateRetrySchedule` accepts exactly the plans whose every wait can be computed. */
  method ValidateRetrySchedule(plan: RetryPlan) returns (ok: bool)
    ensures ok <==> ScheduleComputable(plan)
  {
    var interval := plan.initialInterval;
    var failedAttempt := 1;
    while failedAttempt < plan.maxAttempts
      invariant 1 <= failedAttempt
      invariant failedAttempt < plan.maxAttempts ==> IntervalAfter(failedAttempt, plan) == Ok(interval)
      invariant forall n :: 1 <= n < plan.maxAttempts && n <= failedAttempt ==> IntervalAfter(n, plan).Ok?
      decreases plan.maxAttempts - failedAttempt
    {
      if failedAttempt + 1 < plan.maxAttempts {
        var next := NextInterval(interval, plan);
        if next.Err? {
          assert IntervalAfter(failedAttempt + 1, plan).Err?;
          return false;
        }
        interval := next.value;
      }
      failedAttempt := failedAttempt + 1;
    }
    return true;
  }

  /** `planRetries` for a policy that is present (an absent one plans a single attempt). */
  function PlanRetries(policy: RetryPolicy): (r: Result<RetryPlan, PlanError>) {
    var initial := PolicyDuration(policy.initialInterval);
    if initial.Err? then Err(initial.error) else
    var maximum := PolicyDuration(policy.maximumInterval);
    if maximum.Err? then Err(maximum.error) else
    var threshold := PolicyDuration(policy.durableBackoffThreshold);
    if threshold.Err? then Err(threshold.error) else
    var plan := RetryPlan(
      policy.maximumAttempts,
      initial.value,
      if policy.backoffCoefficient == 0.0 then 1.0 else policy.backoffCoefficient,
      maximum.value,
      threshold.value,
      Elements(policy.nonRetryableErrorCodes));
    if plan.maxAttempts == 0 then Err(AttemptsNotPositive)
    else if plan.maxAttempts > MAXIMUM_RETRY_ATTEMPTS then Err(TooManyAttempts)
    else if plan.initialInterval < 0 then Err(NegativeInterval)
    else if plan.maxAttempts > 1 && plan.initialInterval <= 0 then Err(IntervalRequired)
    else if plan.backoffCoefficient <= 0.0 then Err(CoefficientNotPositive)
    else if plan.maximumInterval < 0 then Err(NegativeInterval)
    else if plan.maximumInterval > 0 && plan.initialInterval > plan.maximumInterval then Err(MaximumBelowInitial)
    else if plan.durableThreshold < 0 then Err(NegativeInterval)
    else if !ScheduleComputable(plan) then Err(IntervalOutOfRange)
    else Ok(plan)
  }

  function SingleAttemptPlan(): RetryPlan { RetryPlan(1, 0, 1.0, 0, 0, {}) }

  /** The facts every accepted plan satisfies, as later modules use them. */
  predicate PlanAccepted(plan: RetryPlan) {
    && 1 <= plan.maxAttempts <= MAXIMUM_RETRY_ATTEMPTS
    && (plan.maxAttempts > 1 ==> plan.initialInterval > 0)
    && plan.backoffCoefficient > 0.0
    && plan.maximumInterval >= 0
    && (plan.maximumInterval > 0 ==> plan.initialInterval <= plan.maximumInterval)
    && plan.durableThreshold >= 0
    && plan.initialInterval <= MAX_INT64 && plan.maximumInterval <= MAX_INT64
    && ScheduleComputable(plan)
  }

  lemma PlannedIsAccepted(policy: RetryPolicy)
    ensures PlanRetries(policy).Ok? ==> PlanAccepted(PlanRetries(policy).value)
  {
  }

  /** The wait after a failed attempt of an accepted plan. */
  function Wait(n: nat, plan: RetryPlan): int
    requires PlanAccepted(plan) && 1 <= n < plan.maxAttempts
  {
    IntervalAfter(n, plan).value
  }

  /** Every wait of an accepted plan is a positive Go duration within the cap. */
  lemma {:induction false} WaitBounds(n: nat, plan: RetryPlan)
    requires PlanAccepted(plan) && 1 <= n < plan.maxAttempts
    ensures 0 < Wait(n, plan) <= MAX_INT64
    ensures plan.maximumInterval > 0 ==> Wait(n, plan) <= plan.maximumInterval
  {
    if n > 1 {
      WaitBounds(n - 1, plan);
      assert IntervalAfter(n - 1, plan).Ok?;
      assert IntervalAfter(n, plan).Ok?;
      NextIntervalBounds(Wait(n - 1, plan), plan);
    }
  }

  lemma NextIntervalBounds(prev: int, plan: RetryPlan)
    requires plan.backoffCoefficient > 0.0 && 0 <= plan.maximumInterval <= MAX_INT64
    requires 0 < prev && (plan.maximumInterval > 0 ==> prev <= plan.maximumInterval)
    requires NextInterval(prev, plan).Ok?
    ensures var next := NextInterval(prev, plan).value;
            && 0 < next <= MAX_INT64
            && (plan.maximumInterval > 0 ==> next <= plan.maximumInterval)
            && (plan.backoffCoefficient >= 1.0 ==> prev <= next)
            && (plan.backoffCoefficient <= 1.0 ==> next <= prev)
  {
    var product := Scaled(prev as real, plan.backoffCoefficient);
    assert NextInterval(prev, plan) == Bounded(product, prev, plan.maximumInterval);
    ScaledOrder(prev as real, plan.backoffCoefficient);
    BoundedOrder(product, prev, plan.maximumInterval);
  }

  lemma BoundedOrder(product: real, prev: int, maximum: int)
    requires 0 < prev && 0 <= maximum <= MAX_INT64 && (maximum > 0 ==> prev <= maximum)
    requires 0.0 < product && Bounded(product, prev, maximum).Ok?
    ensures var next := Bounded(product, prev, maximum).value;
            && 0 < next <= MAX_INT64
            && (maximum > 0 ==> next <= maximum)
            && (product >= prev as real ==> prev <= next)
            && (product <= prev as real ==> next <= prev)
  {
    FloorOrder(product, prev);
    FloorOrder(product, MAX_INT64);
    FloorOrder(product, maximum);
  }

  lemma FloorOrder(x: real, n: int)
    ensures x >= n as real ==> x.Floor >= n
    ensures x <= n as real ==> x.Floor <= n
    ensures x.Floor as real <= x < (x.Floor + 1) as real
  {
  }

  lemma ScaledOrder(x: real, c: real)
    requires x > 0.0 && c > 0.0
    ensures 0.0 < Scaled(x, c)
    ensures c >= 1.0 ==> Scaled(x, c) >= x
    ensures c <= 1.0 ==> Scaled(x, c) <= x
  {
    if c >= 1.0 { assert x * (c - 1.0) >= 0.0; }
    if c <= 1.0 { assert x * (1.0 - c) >= 0.0; }
  }

  /** Waits never shrink under a coefficient of at least one, and never grow
      under one of at most one. */
  lemma {:induction false} WaitMonotone(i: nat, j: nat, plan: RetryPlan)
    requires PlanAccepted(plan) && 1 <= i <= j < plan.maxAttempts
    ensures plan.backoffCoefficient >= 1.0 ==> Wait(i, plan) <= Wait(j, plan)
    ensures plan.backoffCoefficient <= 1.0 ==> Wait(j, plan) <= Wait(i, plan)
    decreases j
  {
    if i < j {
      WaitMonotone(i, j - 1, plan);
      WaitBounds(j - 1, plan);
      assert IntervalAfter(j - 1, plan).Ok? && IntervalAfter(j, plan).Ok?;
      NextIntervalBounds(Wait(j - 1, plan), plan);
    }
  }

  /** What acceptance buys: `planRetries` never accepts a policy that later fails to
      produce a wait, and every wait it produces is usable. */
  lemma AcceptedScheduleIsUsable(policy: RetryPolicy)
    requires PlanRetries(policy).Ok?
    ensures var plan := PlanRetries(policy).value;
            forall n :: 1 <= n < plan.maxAttempts ==>
              && IntervalAfter(n, plan).Ok?
              && 0 < IntervalAfter(n, plan).value <= MAX_INT64
              && (plan.maximumInterval > 0 ==> IntervalAfter(n, plan).value <= plan.maximumInterval)
  {
    var plan := PlanRetries(policy).value;
    PlannedIsAccepted(policy);
    forall n | 1 <= n < plan.maxAttempts
      ensures IntervalAfter(n, plan).Ok? && 0 < IntervalAfter(n, plan).value <= MAX_INT64
      ensures plan.maximumInterval > 0 ==> IntervalAfter(n, plan).value <= plan.maximumInterval
    {
      WaitBounds(n, plan);
    }
  }

  // ---- Canonical form ------------------------------------------------------

  predicate CodeLeq(a: Code, b: Code) { a <= b }

  function Sort(codes: seq<Code>): seq<Code> { SortBy(CodeLeq, codes) }

  /** Drop every element equal to its predecessor. */
  function Dedupe(codes: seq<Code>): seq<Code> {
    if |codes| <= 1 then codes
    else if codes[|codes| - 1] == codes[|codes| - 2] then Dedupe(codes[..|codes| - 1])
    else Dedupe(codes[..|codes| - 1]) + [codes[|codes| - 1]]
  }

  predicate Nondecreasing(s: seq<Code>) {
    forall i, j :: 0 <= i < j < |s| ==> s[i] <= s[j]
  }

  lemma SortCorrect(codes: seq<Code>)
    ensures Nondecreasing(Sort(codes)) && Elements(Sort(codes)) == Elements(codes)
  {
    SortByElements(CodeLeq, codes);
    assert forall i, j :: 0 <= i < j < |Sort(codes)| ==> CodeLeq(Sort(codes)[i], Sort(codes)[j]);
  }

  lemma {:induction false} DedupeAscending(codes: seq<Code>)
    requires Nondecreasing(codes)
    ensures Ascending(Dedupe(codes))
    ensures codes != [] ==> Dedupe(codes) != [] && Dedupe(codes)[|Dedupe(codes)| - 1] == codes[|codes| - 1]
  {
    if |codes| > 1 {
      var front, last := codes[..|codes| - 1], codes[|codes| - 1];
      DedupeAscending(front);
      assert front[|front| - 1] == codes[|codes| - 2] <= last;
      if last != codes[|codes| - 2] { SnocAscending(Dedupe(front), last); }
    }
  }

  lemma {:induction false} DedupeElements(codes: seq<Code>)
    ensures Elements(Dedupe(codes)) == Elements(codes)
  {
    if |codes| > 1 {
      var front, last := codes[..|codes| - 1], codes[|codes| - 1];
      DedupeElements(front);
      assert codes == front + [last];
      SnocElements(front, last);
      SnocElements(Dedupe(front), last);
    }
  }

  lemma SnocElements(s: seq<Code>, x: Code)
    ensures Elements(s + [x]) == Elements(s) + {x}
    ensures s != [] ==> s[|s| - 1] in Elements(s)
  {
  }

  lemma SnocAscending(s: seq<Code>, x: Code)
    requires Ascending(s) && s != [] && s[|s| - 1] < x
    ensures Ascending(s + [x])
  {
  }

  /** The in-place de-duplication loop of `normalizeRetryPolicy`. */
  method UniqueCodes(sorted: seq<Code>) returns (unique: seq<Code>)
    requires Nondecreasing(sorted)
    ensures unique == Dedupe(sorted)
  {
    unique := [];
    var i := 0;
    while i < |sorted|
      invariant 0 <= i <= |sorted|
      invariant unique == Dedupe(sorted[..i])
      invariant i > 0 ==> unique != [] && unique[|unique| - 1] == sorted[i - 1]
    {
      assert sorted[..i + 1][..i] == sorted[..i];
      if |unique| == 0 || sorted[i] != unique[|unique| - 1] {
        unique := unique + [sorted[i]];
      }
      i := i + 1;
    }
    assert sorted[..i] == sorted;
  }

  function Present(d: int): Option<int> { if d != 0 then Some(d) else None }

  /** `normalizeRetryPolicy` for a present policy whose plan was accepted. */
  function Normalize(policy: RetryPolicy, plan: RetryPlan): RetryPolicy {
    RetryPolicy(Present(plan.initialInterval), plan.backoffCoefficient, Present(plan.maximumInterval),
                plan.maxAttempts, Dedupe(Sort(policy.nonRetryableErrorCodes)), Present(plan.durableThreshold))
  }

  function Normalized(policy: RetryPolicy): RetryPolicy
    requires PlanRetries(policy).Ok?
  {
    Normalize(policy, PlanRetries(policy).value)
  }

  lemma CodesCanonical(codes: seq<Code>)
    ensures Ascending(Dedupe(Sort(codes))) && Elements(Dedupe(Sort(codes))) == Elements(codes)
  {
    SortCorrect(codes);
    DedupeAscending(Sort(codes));
    DedupeElements(Sort(codes));
  }

  /** Normalizing loses nothing the runtime acts on: the plan survives unchanged. */
  lemma NormalizePreservesPlan(policy: RetryPolicy)
    requires PlanRetries(policy).Ok?
    ensures PlanRetries(Normalized(policy)) == PlanRetries(policy)
  {
    CodesCanonical(policy.nonRetryableErrorCodes);
  }

  lemma NormalizeIdempotent(policy: RetryPolicy)
    requires PlanRetries(policy).Ok?
    ensures PlanRetries(Normalized(policy)).Ok?
    ensures Normalized(Normalized(policy)) == Normalized(policy)
  {
    NormalizePreservesPlan(policy);
    NormalizedEqualIffSamePlan(Normalized(policy), policy);
  }

  /** The canonical policy is a faithful fingerprint: two policies normalize to the same
      record exactly when they plan the same retries. */
  lemma NormalizedEqualIffSamePlan(p: RetryPolicy, q: RetryPolicy)
    requires PlanRetries(p).Ok? && PlanRetries(q).Ok?
    ensures Normalized(p) == Normalized(q) <==> PlanRetries(p) == PlanRetries(q)
  {
    CodesCanonical(p.nonRetryableErrorCodes);
    CodesCanonical(q.nonRetryableErrorCodes);
    if PlanRetries(p) == PlanRetries(q) {
      AscendingUnique(Dedupe(Sort(p.nonRetryableErrorCodes)), Dedupe(Sort(q.nonRetryableErrorCodes)));
    }
  }
}

/** The durable activity retry machine of `runActivity`, one call at a time.

    Every store write is its own step and may be lost, acknowledged, or land although
    an error came back; a crash may fall between any two steps. The machine keeps what
    the bucket holds (the ActivityRecord and its paired retry timer) apart from what
    only the live call knows (the program counter). Here a call acts on the record of
    its state; `ActivityCalls` adds the run cache that answers it, repeated calls within
    one invocation, and claims. */
module ActivityRetry {
  import opened Basics
  import opened RetryPolicies
  import opened TimerKinds

  type Id = nat
  const EMPTY_ID: Id := 0
  const USER_PANIC_CODE: Code := -1
  const EMPTY_CODE: Code := 0

  // What `runActivity` fixes before it touches storage: the validated plan and the
  // canonical policy it persists with every record.
  datatype Options = Options(activityId: Id, plan: RetryPlan, policy: Option<RetryPolicy>, retryTimerId: Id)

  predicate OptionsAccepted(o: Options) {
    && PlanAccepted(o.plan)
    && (o.plan.maxAttempts > 1 ==> o.policy.Some?)
    && (o.plan.maxAttempts > 1 && o.plan.durableThreshold > 0 ==> o.retryTimerId != EMPTY_ID)
  }

  /** The caller's options, or the error that stops `runActivity` before any storage. */
  function OptionsFor(activityId: Id, policy: Option<RetryPolicy>, retryTimerId: Id): Result<Options, PlanError> {
    match policy
    case None => Ok(Options(activityId, SingleAttemptPlan(), None, retryTimerId))
    case Some(p) =>
      if AsksForTimer(p) && retryTimerId == EMPTY_ID then Err(RetryTimerIdRequired)
      else match PlanRetries(p)
           case Err(e) => Err(e)
           case Ok(plan) => Ok(Options(activityId, plan, Some(Normalize(p, plan)), retryTimerId))
  }

  /** A policy with durable backoff needs a timer to wait on. */
  predicate AsksForTimer(p: RetryPolicy) {
    p.maximumAttempts > 1 && p.durableBackoffThreshold.Some? && p.durableBackoffThreshold.value > 0
  }

  lemma OptionsForAccepted(activityId: Id, policy: Option<RetryPolicy>, retryTimerId: Id)
    ensures var r := OptionsFor(activityId, policy, retryTimerId);
            r.Ok? ==> OptionsAccepted(r.value)
  {
    if policy.Some? { PlannedIsAccepted(policy.value); }
  }

  // ---- What the body may do ------------------------------------------------

  datatype BodyError = Panicked | Typed(code: Code, retryAfter: int) | Untyped

  datatype BodyOutcome = Returned(value: int) | ReturnedNil | Raised(error: BodyError)

  datatype Failure = Failure(code: Code, retryAfter: Option<int>)

  /** `failureFromError`: only a positive Retry-After is kept. */
  function FailureFromError(e: BodyError): Failure {
    match e
    case Panicked => Failure(USER_PANIC_CODE, None)
    case Typed(code, retryAfter) => Failure(code, if retryAfter > 0 then Some(retryAfter) else None)
    case Untyped => Failure(EMPTY_CODE, None)
  }

  // ---- Records -------------------------------------------------------------

  datatype Attempt = Attempt(number: nat, failure: Option<Failure>)

  datatype ActivityStatus = Completed | Failed | Retrying

  datatype ActivityRecord = ActivityRecord(
    status: ActivityStatus,
    attempts: seq<Attempt>,
    failure: Option<Failure>,
    result: Option<int>,
    policy: Option<RetryPolicy>,
    retryTimerId: Id,
    nextAttemptAt: Option<int>)

  datatype TimerRecord = TimerRecord(
    kind: TimerKind,
    retryActivityId: Id,
    status: TimerStatus,
    duration: int,
    fireAt: int,
    firedAt: Option<int>)

  datatype Outcome = Value(value: int) | ActivityFailed(failure: Failure) | Pending(wakeAt: int)
                   | Infrastructure | Conflict | Busy | Exhausted

  function RetryAfterOf(f: Failure): int { if f.retryAfter.Some? then f.retryAfter.value else 0 }

  function Max(a: int, b: int): int { if a >= b then a else b }

  /** The wait after the last failed attempt: the policy's, or a longer Retry-After. */
  function EffectiveInterval(attempts: seq<Attempt>, plan: RetryPlan): Result<int, PlanError> {
    if attempts == [] || attempts[|attempts| - 1].failure.None? then Err(ZeroOrdinal)
    else
      var last := attempts[|attempts| - 1];
      match IntervalAfter(last.number, plan)
      case Err(e) => Err(e)
      case Ok(d) => Ok(Max(d, RetryAfterOf(last.failure.value)))
  }

  predicate DurableInterval(d: int, plan: RetryPlan) {
    plan.durableThreshold > 0 && d >= plan.durableThreshold
  }

  predicate FailedHistory(attempts: seq<Attempt>) {
    forall i :: 0 <= i < |attempts| ==>
      attempts[i].number == i + 1 && attempts[i].failure.Some? && 0 <= RetryAfterOf(attempts[i].failure.value)
  }

  /** `assertRetryingActivity`: what replay demands of a stored RETRYING record. */
  predicate AssertRetrying(record: ActivityRecord, o: Options) {
    var plan := o.plan;
    var attempts := record.attempts;
    && record.policy == o.policy
    && attempts != []
    && |attempts| < plan.maxAttempts
    && FailedHistory(attempts)
    && var last := attempts[|attempts| - 1].failure.value;
    && record.failure == Some(last)
    && last.code != USER_PANIC_CODE
    && last.code !in plan.nonRetryable
    && var interval := EffectiveInterval(attempts, plan);
    && interval.Ok?
    && (DurableInterval(interval.value, plan) <==> record.nextAttemptAt.Some?)
    && record.retryTimerId == o.retryTimerId
  }

  /** `activityRetryTimerDetails`: the shape a paired timer must have. */
  predicate TimerWellFormed(t: TimerRecord, o: Options) {
    && t.kind == ActivityRetry
    && t.retryActivityId == o.activityId
    && (t.status == Scheduled || t.status == Fired)
    && t.duration > 0
    && (t.status == Scheduled ==> t.firedAt.None?)
    && (t.status == Fired ==> t.firedAt.Some?)
  }

  /** `validateNewerPreparedActivityRetryTimer`. */
  predicate NewerTimerValid(attempts: seq<Attempt>, duration: int, plan: RetryPlan) {
    && attempts != []
    && var next := attempts[|attempts| - 1].number + 1;
    && next < plan.maxAttempts
    && IntervalAfter(next, plan).Ok?
    && duration >= IntervalAfter(next, plan).value
    && duration >= plan.durableThreshold
  }

  function FreshTimer(o: Options, duration: int, fireAt: int): TimerRecord {
    TimerRecord(ActivityRetry, o.activityId, Scheduled, duration, fireAt, None)
  }

  // A timer helper leaves the timer object and either a wake time or an early return.
  datatype TimerStep = TimerStep(timer: Option<TimerRecord>, wake: Result<int, Outcome>)

  /** `putActivityRetryTimerVerified`: an ambiguous write counts once read back exactly. */
  function PutTimerVerified(o: Options, timer: Option<TimerRecord>, duration: int, fireAt: int,
                            write: WriteOutcome, readable: bool): TimerStep
  {
    var stored := if write.Landed() then Some(FreshTimer(o, duration, fireAt)) else timer;
    if write.Acked? then TimerStep(stored, Ok(fireAt))
    else if !readable then TimerStep(stored, Err(Infrastructure))
    else if stored.None? then TimerStep(stored, Err(Infrastructure))
    else if !TimerWellFormed(stored.value, o) then TimerStep(stored, Err(Conflict))
    else if stored.value.status == Scheduled && stored.value.fireAt == fireAt && stored.value.duration == duration then
      TimerStep(stored, Ok(fireAt))
    else TimerStep(stored, Err(Infrastructure))
  }

  /** `ensureActivityRetryTimer` for a RETRYING record that carries next_attempt_at. */
  function EnsureTimer(o: Options, timer: Option<TimerRecord>, record: ActivityRecord,
                       write: WriteOutcome, readable: bool): TimerStep
  {
    var plan := o.plan;
    var interval := EffectiveInterval(record.attempts, plan);
    if record.nextAttemptAt.None? || plan.durableThreshold <= 0 || interval.Err? ||
       interval.value < plan.durableThreshold || record.retryTimerId != o.retryTimerId then
      TimerStep(timer, Err(Conflict))
    else
      var wake := record.nextAttemptAt.value;
      if timer.None? then PutTimerVerified(o, timer, interval.value, wake, write, readable)
      else
        var t := timer.value;
        if !TimerWellFormed(t, o) then TimerStep(timer, Err(Conflict))
        else if t.fireAt > wake then
          if !NewerTimerValid(record.attempts, t.duration, plan) then TimerStep(timer, Err(Conflict))
          else if t.status == Fired then PutTimerVerified(o, timer, t.duration, t.fireAt, write, readable)
          else TimerStep(timer, Ok(t.fireAt))
        else if t.fireAt == wake && t.duration != interval.value then TimerStep(timer, Err(Conflict))
        else if t.fireAt == wake && t.status == Scheduled then TimerStep(timer, Ok(wake))
        else PutTimerVerified(o, timer, interval.value, wake, write, readable)
  }

  /** `preparedActivityRetryTimer` (no record yet) and `newerPreparedActivityRetryTimer`
      (a record without next_attempt_at): is there a timer-first boundary to wait for? */
  function PreparedTimer(o: Options, timer: Option<TimerRecord>, record: Option<ActivityRecord>,
                         write: WriteOutcome, readable: bool): TimerStep
    requires timer.Some?
  {
    var plan := o.plan;
    var t := timer.value;
    var valid :=
      if record.Some? then NewerTimerValid(record.value.attempts, t.duration, plan)
      else t.duration >= plan.initialInterval && t.duration >= plan.durableThreshold;
    if !TimerWellFormed(t, o) || !valid then TimerStep(timer, Err(Conflict))
    else if t.status == Fired then PutTimerVerified(o, timer, t.duration, t.fireAt, write, readable)
    else TimerStep(timer, Ok(t.fireAt))
  }

  // ---- The machine ---------------------------------------------------------

  datatype Pc =
    | Idle
    | Claiming
    | Running(attempts: seq<Attempt>)
    | Prepare(record: ActivityRecord)
    | Publish(record: ActivityRecord, wakeAt: int)
    | Persist(record: ActivityRecord)
    | Retire(record: ActivityRecord)
    | Stopped(outcome: Outcome)

  datatype State = State(now: int, activity: Option<ActivityRecord>, timer: Option<TimerRecord>, pc: Pc)

  datatype Event =
    | Tick(elapsed: nat)
    | Crash
    | Invoke(write: WriteOutcome, readable: bool)
    | Body(result: BodyOutcome)
    | TimerWrite(write: WriteOutcome, readable: bool)
    | ActivityWrite(write: WriteOutcome)
    | RetireWrite(write: WriteOutcome)

  function Replay(record: ActivityRecord): Outcome {
    if record.status == Completed && record.result.Some? then Value(record.result.value)
    else if record.status == Failed && record.failure.Some? then ActivityFailed(record.failure.value)
    else Conflict
  }

  predicate MayHaveRetryTimer(o: Options) {
    o.policy.Some? && o.plan.maxAttempts > 1 && o.plan.durableThreshold > 0
  }

  /** `markActivityRetryTimerFired`: best effort, only a well-formed SCHEDULED timer changes. */
  function Retired(s: State, o: Options, write: WriteOutcome): Option<TimerRecord> {
    if s.timer.Some? && TimerWellFormed(s.timer.value, o) && s.timer.value.status == Scheduled && write.Landed()
    then Some(s.timer.value.(status := Fired, firedAt := Some(s.now)))
    else s.timer
  }

  function AfterTimer(s: State, step: TimerStep, attempts: seq<Attempt>): State {
    match step.wake
    case Err(outcome) => s.(timer := step.timer, pc := Stopped(outcome))
    case Ok(wakeAt) =>
      if s.now < wakeAt then s.(timer := step.timer, pc := Stopped(Pending(wakeAt)))
      else s.(timer := step.timer, pc := Running(attempts))
  }

  /** Everything `runActivity` does before it calls the body. */
  function Enter(s: State, o: Options, write: WriteOutcome, readable: bool): State {
    var plan := o.plan;
    match s.activity
    case None =>
      if plan.maxAttempts > 1 && plan.durableThreshold > 0 && s.timer.Some? then
        AfterTimer(s, PreparedTimer(o, s.timer, None, write, readable), [])
      else s.(pc := Running([]))
    case Some(record) =>
      if record.status != Retrying then
        s.(timer := if MayHaveRetryTimer(o) then Retired(s, o, write) else s.timer, pc := Stopped(Replay(record)))
      else if !AssertRetrying(record, o) then s.(pc := Stopped(Conflict))
      else if record.nextAttemptAt.Some? then
        AfterTimer(s, EnsureTimer(o, s.timer, record, write, readable), record.attempts)
      else if plan.durableThreshold > 0 && s.timer.Some? then
        AfterTimer(s, PreparedTimer(o, s.timer, Some(record), write, readable), record.attempts)
      else s.(pc := Running(record.attempts))
  }

  function RecordWith(o: Options, status: ActivityStatus, attempts: seq<Attempt>, failure: Option<Failure>,
                      result: Option<int>, nextAttemptAt: Option<int>): ActivityRecord
  {
    ActivityRecord(status, attempts, failure, result, o.policy, o.retryTimerId, nextAttemptAt)
  }

  function FailureOf(result: BodyOutcome): Failure
    requires !result.Returned?
  {
    if result.ReturnedNil? then Failure(EMPTY_CODE, None) else FailureFromError(result.error)
  }

  predicate NonRetryable(result: BodyOutcome, plan: RetryPlan)
    requires !result.Returned?
  {
    || result.ReturnedNil?
    || result.error.Panicked?
    || FailureOf(result).code == USER_PANIC_CODE
    || FailureOf(result).code in plan.nonRetryable
  }

  /** One iteration of the attempt loop up to the first store write. */
  function RunBody(s: State, o: Options, attempts: seq<Attempt>, result: BodyOutcome): Pc {
    var plan := o.plan;
    var n := |attempts| + 1;
    if n > plan.maxAttempts then Stopped(Exhausted)
    else if result.Returned? then
      Persist(RecordWith(o, Completed, attempts + [Attempt(n, None)], None, Some(result.value), None))
    else
      var failure := FailureOf(result);
      var tried := attempts + [Attempt(n, Some(failure))];
      if n >= plan.maxAttempts || NonRetryable(result, plan) then
        Persist(RecordWith(o, Failed, tried, Some(failure), None, None))
      else
        RetryLater(s, o, tried, failure)
  }

  /** The retry branch: publish a durable boundary first, or stay in process. */
  function RetryLater(s: State, o: Options, tried: seq<Attempt>, failure: Failure): Pc {
    match IntervalAfter(|tried|, o.plan)
    case Err(_) => Stopped(Infrastructure)
    case Ok(d) =>
      var interval := Max(d, RetryAfterOf(failure));
      if DurableInterval(interval, o.plan) then
        Prepare(RecordWith(o, Retrying, tried, Some(failure), None, Some(s.now + interval)))
      else Persist(RecordWith(o, Retrying, tried, Some(failure), None, None))
  }

  /** One step. An event the program counter does not expect changes nothing. */
  function Next(s: State, o: Options, e: Event): State {
    match e
    case Tick(elapsed) => s.(now := s.now + elapsed)
    case Crash => s.(pc := Idle)
    case Invoke(write, readable) => if s.pc.Idle? then Enter(s, o, write, readable) else s
    case Body(result) => if s.pc.Running? then s.(pc := RunBody(s, o, s.pc.attempts, result)) else s
    case TimerWrite(write, readable) =>
      if s.pc.Prepare? then
        var step := EnsureTimer(o, s.timer, s.pc.record, write, readable);
        s.(timer := step.timer,
           pc := if step.wake.Ok? then Publish(s.pc.record, step.wake.value) else Stopped(step.wake.error))
      else s
    case ActivityWrite(write) =>
      if s.pc.Publish? then
        s.(activity := if write.Landed() then Some(s.pc.record) else s.activity,
           pc := Stopped(if write.Acked? then Pending(s.pc.wakeAt) else Infrastructure))
      else if s.pc.Persist? then
        s.(activity := if write.Landed() then Some(s.pc.record) else s.activity,
           pc := if !write.Acked? then Stopped(Infrastructure)
                 else if s.pc.record.status == Retrying then Running(s.pc.record.attempts)
                 else if MayHaveRetryTimer(o) then Retire(s.pc.record)
                 else Stopped(Replay(s.pc.record)))
      else s
    case RetireWrite(write) =>
      if s.pc.Retire? then s.(timer := Retired(s, o, write), pc := Stopped(Replay(s.pc.record))) else s
  }

  function Run(s: State, o: Options, es: seq<Event>): State {
    if es == [] then s else Next(Run(s, o, es[..|es| - 1]), o, es[|es| - 1])
  }

  function Start(): State { State(0, None, None, Idle) }

  function After(o: Options, es: seq<Event>): State { Run(Start(), o, es) }

  // ---- What every run keeps ------------------------------------------------

  predicate Terminal(activity: Option<ActivityRecord>) {
    activity.Some? && activity.value.status != Retrying
  }

  /** Stored attempts are numbered 1..k within the policy's bound. */
  predicate AttemptsNumbered(record: ActivityRecord, plan: RetryPlan) {
    && 1 <= |record.attempts| <= plan.maxAttempts
    && forall i :: 0 <= i < |record.attempts| ==> record.attempts[i].number == i + 1
  }

  predicate RecordValid(record: ActivityRecord, o: Options) {
    && AttemptsNumbered(record, o.plan)
    && (record.status == Retrying ==> AssertRetrying(record, o))
    && (record.status == Completed ==> record.result.Some?)
    && (record.status == Failed ==> record.failure.Some?)
  }

  predicate TimerValid(t: TimerRecord, activity: Option<ActivityRecord>, o: Options) {
    && o.plan.maxAttempts > 1
    && DurableInterval(t.duration, o.plan)
    && TimerWellFormed(t, o)
    && (t.status == Fired ==> Terminal(activity))
  }

  function StoredAttempts(activity: Option<ActivityRecord>): seq<Attempt> {
    if activity.Some? then activity.value.attempts else []
  }

  predicate RecordAttempts(activity: Option<ActivityRecord>, attempts: seq<Attempt>) {
    !Terminal(activity) && attempts == StoredAttempts(activity)
  }

  /** Timer-first pairing: a durable RETRYING record always has its wake. */
  predicate Paired(s: State) {
    s.activity.Some? && s.activity.value.status == Retrying && s.activity.value.nextAttemptAt.Some? ==>
      s.timer.Some? && s.timer.value.status == Scheduled && s.timer.value.fireAt >= s.activity.value.nextAttemptAt.value
  }

  /** Where the timer's duration comes from, relative to the stored record. */
  predicate TimerExplained(s: State, o: Options) {
    s.timer.Some? && PlanAccepted(o.plan) && o.plan.maxAttempts > 1 ==>
      match s.activity
      case None => s.timer.value.duration >= Wait(1, o.plan)
      case Some(record) =>
        record.status == Retrying && record.nextAttemptAt.Some? ==>
          var k := |record.attempts|;
          && (s.timer.value.fireAt == record.nextAttemptAt.value ==>
                EffectiveInterval(record.attempts, o.plan) == Ok(s.timer.value.duration))
          && (s.timer.value.fireAt > record.nextAttemptAt.value ==>
                1 <= k + 1 < o.plan.maxAttempts && s.timer.value.duration >= Wait(k + 1, o.plan))
  }

  /** The live invocation only moves forward from what is stored. */
  predicate PcValid(s: State, o: Options) {
    var waited := s.timer.Some? ==> s.timer.value.fireAt <= s.now;
    match s.pc
    case Idle => true
    case Claiming => true
    case Stopped(_) => true
    case Running(attempts) =>
      waited && RecordAttempts(s.activity, attempts) && |attempts| < o.plan.maxAttempts
    case Prepare(record) =>
      && Extends(s, o, record) && record.status == Retrying && record.nextAttemptAt.Some?
      && (s.timer.Some? ==> record.nextAttemptAt.value > s.timer.value.fireAt)
    case Publish(record, wakeAt) =>
      && Extends(s, o, record) && record.status == Retrying && record.nextAttemptAt == Some(wakeAt)
      && s.timer.Some? && s.timer.value.status == Scheduled && s.timer.value.fireAt == wakeAt
      && EffectiveInterval(record.attempts, o.plan) == Ok(s.timer.value.duration)
    case Persist(record) =>
      && waited && Extends(s, o, record) && record.nextAttemptAt.None?
    case Retire(record) => s.activity == Some(record) && record.status != Retrying && RecordValid(record, o)
  }

  predicate Extends(s: State, o: Options, record: ActivityRecord) {
    && RecordValid(record, o)
    && !Terminal(s.activity)
    && record.attempts[..|record.attempts| - 1] == StoredAttempts(s.activity)
  }

  /** What holds whatever record a call acts on, current or not. */
  predicate Shape(s: State, o: Options) {
    && (s.activity.Some? ==> RecordValid(s.activity.value, o))
    && (s.timer.Some? ==> TimerValid(s.timer.value, s.activity, o))
    && Paired(s)
    && PcValid(s, o)
  }

  predicate Inv(s: State, o: Options) { Shape(s, o) && TimerExplained(s, o) }

  /** The interval of a RETRYING record is the policy wait by ordinal or longer. */
  lemma EffectiveBounds(record: ActivityRecord, o: Options)
    requires OptionsAccepted(o) && record.status == Retrying && RecordValid(record, o)
    ensures 1 <= |record.attempts| < o.plan.maxAttempts
    ensures EffectiveInterval(record.attempts, o.plan).Ok?
    ensures EffectiveInterval(record.attempts, o.plan).value >= Wait(|record.attempts|, o.plan) > 0
  {
    WaitBounds(|record.attempts|, o.plan);
  }

  /** A wait that has passed, or a boundary to wait for: neither disturbs what is stored. */
  lemma InvPrepared(s: State, o: Options, write: WriteOutcome, readable: bool)
    requires OptionsAccepted(o) && Inv(s, o) && s.timer.Some? && !Terminal(s.activity)
    requires s.activity.Some? ==> s.activity.value.nextAttemptAt.None?
    ensures var step := PreparedTimer(o, s.timer, s.activity, write, readable);
            Inv(AfterTimer(s, step, StoredAttempts(s.activity)), o)
  {
    assert PreparedTimer(o, s.timer, s.activity, write, readable).timer == s.timer;
  }

  lemma InvEnsured(s: State, o: Options, write: WriteOutcome, readable: bool)
    requires OptionsAccepted(o) && Inv(s, o) && s.activity.Some? && s.activity.value.status == Retrying
    requires s.activity.value.nextAttemptAt.Some?
    ensures var step := EnsureTimer(o, s.timer, s.activity.value, write, readable);
            step.timer == s.timer && step.wake == Ok(s.timer.value.fireAt)
    ensures Inv(AfterTimer(s, EnsureTimer(o, s.timer, s.activity.value, write, readable), s.activity.value.attempts), o)
  {
    EffectiveBounds(s.activity.value, o);
  }

  /** Entering never rewrites the record, and touches the timer only to retire it. */
  lemma ShapeEnter(s: State, o: Options, write: WriteOutcome, readable: bool)
    requires OptionsAccepted(o) && Shape(s, o)
    ensures var t := Enter(s, o, write, readable);
            && Shape(t, o) && t.now == s.now && t.activity == s.activity
            && (t.timer == s.timer || (Terminal(s.activity) && t.timer == Retired(s, o, write)))
            && (t.pc.Stopped? || (t.pc.Running? && RecordAttempts(s.activity, t.pc.attempts)))
  {
    if Terminal(s.activity) {
    } else if s.activity.Some? && s.activity.value.nextAttemptAt.Some? {
      EffectiveBounds(s.activity.value, o);
      var step := EnsureTimer(o, s.timer, s.activity.value, write, readable);
      assert step.timer == s.timer;
      ShapeAfterTimer(s, o, step);
    } else if s.timer.Some? {
      var step := PreparedTimer(o, s.timer, s.activity, write, readable);
      assert step.timer == s.timer;
      ShapeAfterTimer(s, o, step);
    }
  }

  lemma ShapeAfterTimer(s: State, o: Options, step: TimerStep)
    requires Shape(s, o) && !Terminal(s.activity) && step.timer == s.timer && s.timer.Some?
    requires step.wake.Ok? ==> step.wake.value == s.timer.value.fireAt
    ensures Shape(AfterTimer(s, step, StoredAttempts(s.activity)), o)
  {
  }

  lemma InvEnter(s: State, o: Options, write: WriteOutcome, readable: bool)
    requires OptionsAccepted(o) && Inv(s, o)
    ensures Inv(Enter(s, o, write, readable), o)
  {
    ShapeEnter(s, o, write, readable);
  }

  /** What the attempt loop leaves for the next store write. */
  predicate AttemptDone(s: State, o: Options, attempts: seq<Attempt>, pc: Pc) {
    && (pc.Prepare? || pc.Persist?)
    && RecordValid(pc.record, o)
    && pc.record.attempts[..|pc.record.attempts| - 1] == attempts
    && (pc.Persist? ==> pc.record.nextAttemptAt.None?)
    && (pc.Prepare? ==> pc.record.status == Retrying && pc.record.nextAttemptAt.Some?)
    && (pc.Prepare? ==> pc.record.nextAttemptAt.value > s.now)
  }

  lemma NumberedSnoc(attempts: seq<Attempt>, failure: Option<Failure>)
    requires FailedHistory(attempts)
    ensures var tried := attempts + [Attempt(|attempts| + 1, failure)];
            && tried[..|tried| - 1] == attempts
            && (forall i :: 0 <= i < |tried| ==> tried[i].number == i + 1)
            && (failure.Some? && RetryAfterOf(failure.value) >= 0 ==> FailedHistory(tried))
  {
  }

  /** A retryable failure yields a record that passes the strict replay checks. */
  lemma RetryRecordValid(s: State, o: Options, attempts: seq<Attempt>, failure: Failure)
    requires OptionsAccepted(o) && FailedHistory(attempts) && |attempts| + 1 < o.plan.maxAttempts
    requires Retryable(failure.code, o) && RetryAfterOf(failure) >= 0
    ensures var tried := attempts + [Attempt(|attempts| + 1, Some(failure))];
            AttemptDone(s, o, attempts, RetryLater(s, o, tried, failure))
  {
    NumberedSnoc(attempts, Some(failure));
    var tried := attempts + [Attempt(|attempts| + 1, Some(failure))];
    WaitBounds(|tried|, o.plan);
    assert IntervalAfter(|tried|, o.plan).Ok?;
    assert EffectiveInterval(tried, o.plan) == Ok(Max(Wait(|tried|, o.plan), RetryAfterOf(failure)));
  }

  predicate Retryable(code: Code, o: Options) { code != USER_PANIC_CODE && code !in o.plan.nonRetryable }

  /** The record any attempt produces is valid and extends the stored history by one. */
  lemma BodyRecordValid(s: State, o: Options, attempts: seq<Attempt>, result: BodyOutcome)
    requires OptionsAccepted(o) && RecordAttempts(s.activity, attempts) && |attempts| < o.plan.maxAttempts
    requires s.activity.Some? ==> RecordValid(s.activity.value, o)
    ensures AttemptDone(s, o, attempts, RunBody(s, o, attempts, result))
  {
    assert FailedHistory(attempts);
    if !result.Returned? && |attempts| + 1 < o.plan.maxAttempts && !NonRetryable(result, o.plan) {
      RetryRecordValid(s, o, attempts, FailureOf(result));
    } else {
      NumberedSnoc(attempts, if result.Returned? then None else Some(FailureOf(result)));
    }
  }

  lemma ShapeAttemptDone(s: State, o: Options, pc: Pc)
    requires Shape(s, o) && s.pc.Running? && AttemptDone(s, o, s.pc.attempts, pc)
    ensures Shape(s.(pc := pc), o)
  {
  }

  lemma ShapeBody(s: State, o: Options, result: BodyOutcome)
    requires OptionsAccepted(o) && Shape(s, o) && s.pc.Running?
    ensures Shape(s.(pc := RunBody(s, o, s.pc.attempts, result)), o)
  {
    BodyRecordValid(s, o, s.pc.attempts, result);
    ShapeAttemptDone(s, o, RunBody(s, o, s.pc.attempts, result));
  }

  /** The timer write moves the wake forward or leaves the timer as it was. */
  lemma ShapeTimerWrite(s: State, o: Options, write: WriteOutcome, readable: bool)
    requires OptionsAccepted(o) && Shape(s, o) && s.pc.Prepare?
    ensures var t := Next(s, o, TimerWrite(write, readable));
            && Shape(t, o)
            && (t.timer == s.timer || (t.timer.Some? && t.timer.value.status == Scheduled
                                       && (s.timer.Some? ==> t.timer.value.fireAt > s.timer.value.fireAt)))
  {
    EffectiveBounds(s.pc.record, o);
  }

  lemma ShapeActivityWrite(s: State, o: Options, write: WriteOutcome)
    requires Shape(s, o)
    ensures Shape(Next(s, o, ActivityWrite(write)), o)
  {
  }

  lemma InvTimerWrite(s: State, o: Options, write: WriteOutcome, readable: bool)
    requires OptionsAccepted(o) && Inv(s, o) && s.pc.Prepare?
    ensures Inv(Next(s, o, TimerWrite(write, readable)), o)
  {
    ShapeTimerWrite(s, o, write, readable);
    ExplainedTimerWrite(s, o, write, readable);
  }

  lemma ExplainedTimerWrite(s: State, o: Options, write: WriteOutcome, readable: bool)
    requires OptionsAccepted(o) && Inv(s, o) && s.pc.Prepare?
    ensures TimerExplained(Next(s, o, TimerWrite(write, readable)), o)
  {
    EffectiveBounds(s.pc.record, o);
    if s.activity.Some? { EffectiveBounds(s.activity.value, o); }
  }

  lemma InvActivityWrite(s: State, o: Options, write: WriteOutcome)
    requires OptionsAccepted(o) && Inv(s, o)
    ensures Inv(Next(s, o, ActivityWrite(write)), o)
  {
    ShapeActivityWrite(s, o, write);
  }

  lemma InvStep(s: State, o: Options, e: Event)
    requires OptionsAccepted(o) && Inv(s, o)
    ensures Inv(Next(s, o, e), o)
  {
    match e
    case Invoke(write, readable) => InvEnter(s, o, write, readable);
    case Body(result) => if s.pc.Running? { ShapeBody(s, o, result); }
    case TimerWrite(write, readable) => if s.pc.Prepare? { InvTimerWrite(s, o, write, readable); }
    case ActivityWrite(write) => InvActivityWrite(s, o, write);
    case Tick(_) =>
    case Crash =>
    case RetireWrite(_) =>
  }

  lemma {:induction false} InvRun(o: Options, es: seq<Event>)
    requires OptionsAccepted(o)
    ensures Inv(After(o, es), o)
  {
    if es != [] {
      InvRun(o, es[..|es| - 1]);
      InvStep(After(o, es[..|es| - 1]), o, es[|es| - 1]);
    }
  }

  // ---- What one step may do to the stored records ------------------------------

  lemma RunSnoc(o: Options, es: seq<Event>, e: Event)
    ensures After(o, es + [e]) == Next(After(o, es), o, e)
  {
    assert (es + [e])[..|es + [e]| - 1] == es;
  }

  /** What one step may do to the stored records. */
  predicate Forward(s: State, t: State) {
    && (s.timer.Some? ==> t.timer.Some? && t.timer.value.fireAt >= s.timer.value.fireAt)
    && (Terminal(s.activity) ==> t.activity == s.activity)
    && StoredAttempts(s.activity) <= StoredAttempts(t.activity)
  }

  lemma ForwardStep(s: State, o: Options, e: Event)
    requires OptionsAccepted(o) && Inv(s, o)
    ensures Forward(s, Next(s, o, e))
  {
    if e.TimerWrite? && s.pc.Prepare? { EffectiveBounds(s.pc.record, o); }
    if e.Invoke? { ShapeEnter(s, o, e.write, e.readable); }
  }

  lemma ForwardTransitive(s: State, t: State, u: State)
    requires Forward(s, t) && Forward(t, u)
    ensures Forward(s, u)
  {
  }

  // ---- When replay conflicts with the runtime's own records ------------------

  /** A record without next_attempt_at beside a timer the replay check takes for the
      preparation of the next attempt, but which is too short or comes too late for one. */
  predicate StaleTimer(s: State, o: Options)
    requires OptionsAccepted(o)
  {
    && s.activity.Some? && s.activity.value.status == Retrying && s.activity.value.nextAttemptAt.None?
    && s.timer.Some?
    && var next := |s.activity.value.attempts| + 1;
    (next < o.plan.maxAttempts ==> s.timer.value.duration < Wait(next, o.plan))
  }

  /** From any state a run can leave behind, an invocation conflicts exactly on a stale timer. */
  lemma EnterConflictsExactlyOnStaleTimer(s: State, o: Options, write: WriteOutcome, readable: bool)
    requires OptionsAccepted(o) && Inv(s, o)
    ensures Enter(s, o, write, readable).pc == Stopped(Conflict) <==> StaleTimer(s, o)
  {
    if s.activity.Some? && s.activity.value.status == Retrying {
      EffectiveBounds(s.activity.value, o);
      if s.activity.value.nextAttemptAt.Some? { InvEnsured(s, o, write, readable); }
    }
  }

  lemma ConflictOnlyOnEntry(s: State, o: Options, e: Event)
    requires OptionsAccepted(o) && Inv(s, o) && s.pc != Stopped(Conflict)
    requires Next(s, o, e).pc == Stopped(Conflict)
    ensures e.Invoke? && StaleTimer(s, o)
  {
    if e.Invoke? {
      EnterConflictsExactlyOnStaleTimer(s, o, e.write, e.readable);
    } else if e.TimerWrite? {
      EffectiveBounds(s.pc.record, o);
    } else if e.Body? {
      BodyRecordValid(s, o, s.pc.attempts, e.result);
    }
  }

  /** A timer that does not fit the record a call acts on: too short or too late for the next
      attempt, or not the one its own next_attempt_at was written with. */
  predicate TimerRejected(s: State, o: Options)
    requires OptionsAccepted(o)
  {
    && s.timer.Some? && o.plan.maxAttempts > 1
    && match s.activity
       case None => s.timer.value.duration < Wait(1, o.plan)
       case Some(record) =>
         var next := |record.attempts| + 1;
         && record.status == Retrying
         && if record.nextAttemptAt.Some? && s.timer.value.fireAt == record.nextAttemptAt.value
            then EffectiveInterval(record.attempts, o.plan) != Ok(s.timer.value.duration)
            else next < o.plan.maxAttempts ==> s.timer.value.duration < Wait(next, o.plan)
  }

  /** Whatever record a call acts on, it reports a conflict exactly on a timer that does not fit. */
  lemma EnterConflictsExactlyOnRejectedTimer(s: State, o: Options, write: WriteOutcome, readable: bool)
    requires OptionsAccepted(o) && Shape(s, o)
    ensures Enter(s, o, write, readable).pc == Stopped(Conflict) <==> TimerRejected(s, o)
  {
    if s.activity.Some? && s.activity.value.status == Retrying { EffectiveBounds(s.activity.value, o); }
    if o.plan.maxAttempts > 1 { WaitBounds(1, o.plan); }
  }

  predicate Conflicts(o: Options, es: seq<Event>) { After(o, es).pc == Stopped(Conflict) }

  predicate DurableAt(n: nat, plan: RetryPlan)
    requires PlanAccepted(plan) && 1 <= n < plan.maxAttempts
  {
    DurableInterval(Wait(n, plan), plan)
  }

  /** With vendor Retry-After values in play, replay is safe when no in-process wait can be
      followed by a boundary longer than the threshold, or by none at all. */
  predicate SafeForAnyFailure(plan: RetryPlan)
    requires PlanAccepted(plan)
  {
    plan.durableThreshold > 0 ==> forall k :: 1 <= k < plan.maxAttempts ==> SafeAfter(k, plan)
  }

  predicate SafeAfter(k: nat, plan: RetryPlan)
    requires PlanAccepted(plan) && 1 <= k < plan.maxAttempts
  {
    || Wait(k, plan) >= plan.durableThreshold
    || (k + 1 < plan.maxAttempts && Wait(k + 1, plan) <= plan.durableThreshold)
  }

  /** Without Retry-After, replay is safe when a policy that starts durable ends durable. */
  predicate SafeWithoutRetryAfter(plan: RetryPlan)
    requires PlanAccepted(plan)
  {
    plan.maxAttempts > 1 && DurableAt(1, plan) ==> DurableAt(plan.maxAttempts - 1, plan)
  }

  predicate PlainFailure(e: Event) {
    e.Body? && e.result.Raised? && e.result.error.Typed? ==> e.result.error.retryAfter <= 0
  }

  predicate RetryAfterFree(es: seq<Event>) {
    forall i :: 0 <= i < |es| ==> PlainFailure(es[i])
  }

  lemma SafePolicyHasNoStaleTimer(s: State, o: Options)
    requires OptionsAccepted(o) && SafeForAnyFailure(o.plan) && Inv(s, o)
    ensures !StaleTimer(s, o)
  {
    if s.activity.Some? && s.activity.value.status == Retrying {
      EffectiveBounds(s.activity.value, o);
      assert o.plan.durableThreshold > 0 ==> SafeAfter(|s.activity.value.attempts|, o.plan);
    }
  }

  // Without Retry-After the timer's duration is exactly the wait it was prepared for.
  predicate NoRetryAfter(attempts: seq<Attempt>) {
    forall i :: 0 <= i < |attempts| ==> attempts[i].failure.Some? ==> attempts[i].failure.value.retryAfter.None?
  }

  predicate OwnTimer(s: State)
    requires s.timer.Some?
  {
    s.activity.Some? && s.activity.value.nextAttemptAt == Some(s.timer.value.fireAt)
  }

  predicate TimerExact(s: State, o: Options)
    requires OptionsAccepted(o)
  {
    s.timer.Some? && !Terminal(s.activity) ==>
      var k := |StoredAttempts(s.activity)|;
      && o.plan.maxAttempts > 1
      && (OwnTimer(s) || (k + 1 < o.plan.maxAttempts && s.timer.value.duration == Wait(k + 1, o.plan)))
  }

  predicate Plain(s: State, o: Options)
    requires OptionsAccepted(o)
  {
    && NoRetryAfter(StoredAttempts(s.activity))
    && TimerExact(s, o)
    && (s.pc.Running? ==> NoRetryAfter(s.pc.attempts))
    && (s.pc.Prepare? || s.pc.Publish? || s.pc.Persist? ==> NoRetryAfter(s.pc.record.attempts))
    && (s.pc.Persist? && s.pc.record.status == Retrying ==> s.timer.None?)
  }

  lemma DurableStaysDurable(i: nat, j: nat, plan: RetryPlan)
    requires PlanAccepted(plan) && SafeWithoutRetryAfter(plan) && 1 <= i <= j < plan.maxAttempts
    requires DurableAt(i, plan)
    ensures DurableAt(j, plan)
  {
    WaitMonotone(i, j, plan);
    WaitMonotone(1, i, plan);
    WaitMonotone(j, plan.maxAttempts - 1, plan);
  }

  lemma PlainInterval(record: ActivityRecord, o: Options)
    requires OptionsAccepted(o) && record.status == Retrying && RecordValid(record, o) && NoRetryAfter(record.attempts)
    ensures 1 <= |record.attempts| < o.plan.maxAttempts
    ensures EffectiveInterval(record.attempts, o.plan) == Ok(Wait(|record.attempts|, o.plan))
    ensures record.nextAttemptAt.Some? <==> DurableAt(|record.attempts|, o.plan)
  {
    EffectiveBounds(record, o);
  }

  /** An attempt that stays in process cannot find a timer beside the record. */
  lemma PlainInProcess(s: State, o: Options, record: ActivityRecord)
    requires OptionsAccepted(o) && SafeWithoutRetryAfter(o.plan) && Inv(s, o) && Plain(s, o)
    requires Extends(s, o, record) && record.status == Retrying && record.nextAttemptAt.None?
    requires NoRetryAfter(record.attempts)
    ensures s.timer.None?
  {
    PlainInterval(record, o);
    var n := |record.attempts|;
    if s.timer.Some? {
      if OwnTimer(s) {
        PlainInterval(s.activity.value, o);
        DurableStaysDurable(n - 1, n, o.plan);
      }
      assert false;
    }
  }

  lemma PlainBody(s: State, o: Options, result: BodyOutcome)
    requires OptionsAccepted(o) && SafeWithoutRetryAfter(o.plan) && Inv(s, o) && Plain(s, o) && s.pc.Running?
    requires PlainFailure(Body(result))
    ensures Plain(s.(pc := RunBody(s, o, s.pc.attempts, result)), o)
  {
    BodyRecordValid(s, o, s.pc.attempts, result);
    PlainAttempt(s, o, s.pc.attempts, result);
    PlainAttemptDone(s, o, RunBody(s, o, s.pc.attempts, result));
  }

  lemma PlainAttemptDone(s: State, o: Options, pc: Pc)
    requires OptionsAccepted(o) && SafeWithoutRetryAfter(o.plan) && Inv(s, o) && Plain(s, o) && s.pc.Running?
    requires AttemptDone(s, o, s.pc.attempts, pc) && NoRetryAfter(pc.record.attempts)
    ensures Plain(s.(pc := pc), o)
  {
    if pc.record.status == Retrying && pc.record.nextAttemptAt.None? { PlainInProcess(s, o, pc.record); }
  }

  lemma PlainAttempt(s: State, o: Options, attempts: seq<Attempt>, result: BodyOutcome)
    requires NoRetryAfter(attempts) && PlainFailure(Body(result))
    ensures var pc := RunBody(s, o, attempts, result);
            pc.Prepare? || pc.Persist? ==> NoRetryAfter(pc.record.attempts)
  {
  }

  lemma PlainEnter(s: State, o: Options, write: WriteOutcome, readable: bool)
    requires OptionsAccepted(o) && Inv(s, o) && Plain(s, o)
    ensures Plain(Enter(s, o, write, readable), o)
  {
    ShapeEnter(s, o, write, readable);
  }

  lemma PlainStep(s: State, o: Options, e: Event)
    requires OptionsAccepted(o) && SafeWithoutRetryAfter(o.plan) && Inv(s, o) && Plain(s, o) && PlainFailure(e)
    ensures Plain(Next(s, o, e), o)
  {
    match e
    case Body(result) => if s.pc.Running? { PlainBody(s, o, result); }
    case TimerWrite(_, _) => if s.pc.Prepare? { PlainInterval(s.pc.record, o); }
    case Invoke(write, readable) => if s.pc.Idle? { PlainEnter(s, o, write, readable); }
    case ActivityWrite(_) =>
    case Tick(_) =>
    case Crash =>
    case RetireWrite(_) =>
  }

  /** Without Retry-After a safe plan leaves no stale timer. */
  lemma PlainHasNoStaleTimer(s: State, o: Options)
    requires OptionsAccepted(o) && SafeWithoutRetryAfter(o.plan) && Inv(s, o) && Plain(s, o)
    ensures !StaleTimer(s, o)
  {
    if s.activity.Some? && s.activity.value.status == Retrying { PlainInterval(s.activity.value, o); }
  }

  // ---- Runs that do conflict -------------------------------------------------

  /** No record write lands behind an error, and every timer call of an entry succeeds. */
  predicate Ordinary(e: Event) {
    e != ActivityWrite(Ambiguous) && (e.Invoke? ==> e == Invoke(Acked, true))
  }

  predicate OrdinaryRun(es: seq<Event>) { forall i :: 0 <= i < |es| ==> Ordinary(es[i]) }

  lemma {:induction false} CodeBound(codes: set<Code>) returns (bound: Code)
    ensures bound > EMPTY_CODE && forall c :: c in codes ==> c < bound
    decreases |codes|
  {
    bound := EMPTY_CODE + 1;
    if c :| c in codes {
      var rest := CodeBound(codes - {c});
      bound := if c < rest then rest else c + 1;
      assert forall x :: x in codes ==> x == c || x in codes - {c};
    }
  }

  /** Wait out the stored wake and invoke: either the body is next, or replay conflicts. */
  lemma ReachBody(o: Options, es: seq<Event>) returns (more: seq<Event>)
    requires OptionsAccepted(o) && !Terminal(After(o, es).activity)
    ensures RetryAfterFree(es) ==> RetryAfterFree(more)
    ensures OrdinaryRun(es) ==> OrdinaryRun(more)
    ensures var s, t := After(o, es), After(o, more);
            && t.activity == s.activity && t.timer == s.timer
            && (t.pc == Stopped(Conflict) || t.pc == Running(StoredAttempts(s.activity)))
  {
    var s := After(o, es);
    InvRun(o, es);
    var gap: nat := if s.timer.Some? && s.timer.value.fireAt > s.now then s.timer.value.fireAt - s.now else 0;
    RunSnoc(o, es, Crash);
    RunSnoc(o, es + [Crash], Tick(gap));
    var waited := es + [Crash] + [Tick(gap)];
    InvRun(o, waited);
    more := waited + [Invoke(Acked, true)];
    RunSnoc(o, waited, Invoke(Acked, true));
    EnterRuns(After(o, waited), o);
  }

  /** Once the wake has passed, a call that is not rejected runs the body. */
  lemma EnterRuns(s: State, o: Options)
    requires OptionsAccepted(o) && Shape(s, o) && !Terminal(s.activity)
    requires s.timer.Some? ==> s.timer.value.fireAt <= s.now
    ensures var t := Enter(s, o, Acked, true);
            && t.activity == s.activity && t.timer == s.timer
            && (t.pc == Stopped(Conflict) || t.pc == Running(StoredAttempts(s.activity)))
  {
    ShapeEnter(s, o, Acked, true);
    if s.activity.Some? { EffectiveBounds(s.activity.value, o); }
  }

  /** A retryable failure whose wait is durable asks for a timer before its record. */
  lemma DurableAttempt(s: State, o: Options, code: Code, retryAfter: nat)
    requires OptionsAccepted(o) && Shape(s, o) && s.pc.Running? && Retryable(code, o) && o.plan.durableThreshold > 0
    requires var n := |StoredAttempts(s.activity)| + 1;
             n < o.plan.maxAttempts && Max(Wait(n, o.plan), retryAfter) >= o.plan.durableThreshold
    ensures var n, d := |StoredAttempts(s.activity)| + 1, Max(Wait(|StoredAttempts(s.activity)| + 1, o.plan), retryAfter);
            var t := Next(s, o, Body(Raised(Typed(code, retryAfter))));
            && t == s.(pc := t.pc) && Shape(t, o) && t.pc.Prepare?
            && t.pc.record.status == Retrying && |t.pc.record.attempts| == n
            && EffectiveInterval(t.pc.record.attempts, o.plan) == Ok(d)
            && t.pc.record.nextAttemptAt == Some(s.now + d) && t.pc.record.retryTimerId == o.retryTimerId
  {
    var n, failure := |s.pc.attempts| + 1, FailureOf(Raised(Typed(code, retryAfter)));
    ShapeBody(s, o, Raised(Typed(code, retryAfter)));
    WaitBounds(n, o.plan);
    assert IntervalAfter(n, o.plan) == Ok(Wait(n, o.plan));
    var tried := s.pc.attempts + [Attempt(n, Some(failure))];
    assert RunBody(s, o, s.pc.attempts, Raised(Typed(code, retryAfter))) == RetryLater(s, o, tried, failure);
  }

  /** Then the timer is written and the record is next. */
  lemma DurableFailure(s: State, o: Options, code: Code, retryAfter: nat)
    requires OptionsAccepted(o) && Shape(s, o) && s.pc.Running? && Retryable(code, o) && o.plan.durableThreshold > 0
    requires var n := |StoredAttempts(s.activity)| + 1;
             n < o.plan.maxAttempts && Max(Wait(n, o.plan), retryAfter) >= o.plan.durableThreshold
    ensures var n, d := |StoredAttempts(s.activity)| + 1, Max(Wait(|StoredAttempts(s.activity)| + 1, o.plan), retryAfter);
            var a := Next(s, o, Body(Raised(Typed(code, retryAfter))));
            var t := Next(a, o, TimerWrite(Acked, true));
            && a.pc.Prepare? && a == s.(pc := a.pc) && t == s.(pc := t.pc, timer := Some(FreshTimer(o, d, s.now + d)))
            && t.pc == Publish(a.pc.record, s.now + d) && a.pc.record.status == Retrying && |a.pc.record.attempts| == n
            && a.pc.record.nextAttemptAt == Some(s.now + d)
  {
    DurableAttempt(s, o, code, retryAfter);
  }

  /** A retryable failure whose wait is not durable is stored without a timer. */
  lemma InProcessFailure(s: State, o: Options, code: Code)
    requires OptionsAccepted(o) && Shape(s, o) && s.pc.Running? && Retryable(code, o)
    requires var n := |StoredAttempts(s.activity)| + 1;
             n < o.plan.maxAttempts && !DurableAt(n, o.plan)
    ensures var n := |StoredAttempts(s.activity)| + 1;
            var t := Next(s, o, Body(Raised(Typed(code, 0))));
            && t.pc.Persist? && t == s.(pc := t.pc) && t.pc.record.status == Retrying && |t.pc.record.attempts| == n
            && t.pc.record.nextAttemptAt.None?
  {
    BodyRecordValid(s, o, s.pc.attempts, Raised(Typed(code, 0)));
    WaitBounds(|s.pc.attempts| + 1, o.plan);
    assert IntervalAfter(|s.pc.attempts| + 1, o.plan) == Ok(Wait(|s.pc.attempts| + 1, o.plan));
  }

  lemma GoodSnoc(es: seq<Event>, e: Event)
    ensures RetryAfterFree(es) && PlainFailure(e) ==> RetryAfterFree(es + [e])
    ensures OrdinaryRun(es) && Ordinary(e) ==> OrdinaryRun(es + [e])
  {
  }

  /** Fail one attempt, store what it leaves, and crash. */
  lemma FailAndStore(o: Options, es: seq<Event>, code: Code) returns (more: seq<Event>)
    requires OptionsAccepted(o) && After(o, es).pc.Running? && Retryable(code, o)
    requires |StoredAttempts(After(o, es).activity)| + 1 < o.plan.maxAttempts
    ensures RetryAfterFree(es) ==> RetryAfterFree(more)
    ensures OrdinaryRun(es) ==> OrdinaryRun(more)
    ensures var s, t := After(o, es), After(o, more);
            var n := |StoredAttempts(s.activity)| + 1;
            && t.activity.Some? && t.activity.value.status == Retrying && |t.activity.value.attempts| == n
            && (t.activity.value.nextAttemptAt.Some? <==> DurableAt(n, o.plan))
            && (if DurableAt(n, o.plan) then t.timer.Some? else t.timer == s.timer)
  {
    var s := After(o, es);
    InvRun(o, es);
    var fails, times, stores := Body(Raised(Typed(code, 0))), TimerWrite(Acked, true), ActivityWrite(Acked);
    if DurableAt(|StoredAttempts(s.activity)| + 1, o.plan) {
      DurableFailure(s, o, code, 0);
    } else {
      InProcessFailure(s, o, code);
    }
    RunSnoc(o, es, fails);
    RunSnoc(o, es + [fails], times);
    RunSnoc(o, es + [fails] + [times], stores);
    GoodSnoc(es, fails);
    GoodSnoc(es + [fails], times);
    GoodSnoc(es + [fails] + [times], stores);
    more := es + [fails] + [times] + [stores];
  }

  /** Fail one attempt with a Retry-After at the threshold and crash after the timer write. */
  lemma PrepareAndCrash(o: Options, es: seq<Event>, code: Code) returns (more: seq<Event>)
    requires OptionsAccepted(o) && After(o, es).pc.Running? && Retryable(code, o) && o.plan.durableThreshold > 0
    requires var n := |StoredAttempts(After(o, es).activity)| + 1;
             n < o.plan.maxAttempts && Wait(n, o.plan) < o.plan.durableThreshold
    ensures OrdinaryRun(es) ==> OrdinaryRun(more)
    ensures var s, t := After(o, es), After(o, more);
            && t.activity == s.activity && t.timer.Some? && t.timer.value.duration == o.plan.durableThreshold
  {
    var s := After(o, es);
    InvRun(o, es);
    var fails, times := Body(Raised(Typed(code, o.plan.durableThreshold))), TimerWrite(Acked, true);
    DurableFailure(s, o, code, o.plan.durableThreshold);
    RunSnoc(o, es, fails);
    RunSnoc(o, es + [fails], times);
    GoodSnoc(es, fails);
    GoodSnoc(es + [fails], times);
    more := es + [fails] + [times];
  }

  predicate ReachedAttempts(s: State, o: Options, n: nat)
    requires OptionsAccepted(o) && n < o.plan.maxAttempts
  {
    && !Terminal(s.activity) && |StoredAttempts(s.activity)| == n
    && (n > 0 ==> s.activity.Some? && (s.activity.value.nextAttemptAt.Some? <==> DurableAt(n, o.plan)))
    && (n > 0 && DurableAt(1, o.plan) ==> s.timer.Some?)
  }

  lemma {:induction false} ReachAttempts(o: Options, n: nat, code: Code) returns (es: seq<Event>)
    requires OptionsAccepted(o) && n < o.plan.maxAttempts && Retryable(code, o)
    ensures RetryAfterFree(es) && OrdinaryRun(es)
    ensures Conflicts(o, es) || ReachedAttempts(After(o, es), o, n)
  {
    es := [];
    if n > 0 {
      es := ReachAttempts(o, n - 1, code);
      if !Conflicts(o, es) {
        var body := ReachBody(o, es);
        if Conflicts(o, body) {
          es := body;
        } else {
          es := FailAndStore(o, body, code);
        }
      }
    }
  }

  lemma StaleTimerConflicts(o: Options, es: seq<Event>) returns (more: seq<Event>)
    requires OptionsAccepted(o) && StaleTimer(After(o, es), o)
    ensures RetryAfterFree(es) ==> RetryAfterFree(more)
    ensures OrdinaryRun(es) ==> OrdinaryRun(more)
    ensures Conflicts(o, more)
  {
    RunSnoc(o, es, Crash);
    var crashed := es + [Crash];
    more := crashed + [Invoke(Acked, true)];
    RunSnoc(o, crashed, Invoke(Acked, true));
    InvRun(o, crashed);
    EnterConflictsExactlyOnStaleTimer(After(o, crashed), o, Acked, true);
  }

  lemma UnsafePlainConflicts(o: Options) returns (es: seq<Event>)
    requires OptionsAccepted(o) && !SafeWithoutRetryAfter(o.plan)
    ensures RetryAfterFree(es) && OrdinaryRun(es) && Conflicts(o, es)
  {
    var code := CodeBound(o.plan.nonRetryable);
    es := ReachAttempts(o, o.plan.maxAttempts - 1, code);
    if !Conflicts(o, es) {
      InvRun(o, es);
      es := StaleTimerConflicts(o, es);
    }
  }

  lemma UnsafePolicyConflicts(o: Options) returns (es: seq<Event>)
    requires OptionsAccepted(o) && !SafeForAnyFailure(o.plan)
    ensures OrdinaryRun(es) && Conflicts(o, es)
  {
    var code := CodeBound(o.plan.nonRetryable);
    var k :| 1 <= k < o.plan.maxAttempts && !SafeAfter(k, o.plan);
    es := ReachAttempts(o, k - 1, code);
    if Conflicts(o, es) { return; }
    es := ReachBody(o, es);
    if Conflicts(o, es) { return; }
    es := PrepareAndCrash(o, es, code);
    es := ReachBody(o, es);
    if Conflicts(o, es) { return; }
    es := FailAndStore(o, es, code);
    es := StaleTimerConflicts(o, es);
  }

  /** In particular every policy whose waits do not shrink is safe. */
  lemma GrowingBackoffIsSafe(plan: RetryPlan)
    requires PlanAccepted(plan) && plan.backoffCoefficient >= 1.0
    ensures SafeWithoutRetryAfter(plan)
  {
    if plan.maxAttempts > 1 { WaitMonotone(1, plan.maxAttempts - 1, plan); }
  }

  /** A policy with growing waits that still fails replay once a vendor sends Retry-After:
      three attempts, one second between them, durable from ten seconds. */
  lemma RetryAfterBreaksReplay(o: Options) returns (es: seq<Event>)
    requires o.plan == RetryPlan(3, 1_000_000_000, 1.0, 0, 10_000_000_000, {}) && o.policy.Some? && o.retryTimerId != EMPTY_ID
    ensures OptionsAccepted(o) && SafeWithoutRetryAfter(o.plan)
    ensures OrdinaryRun(es) && Conflicts(o, es)
  {
    assert IntervalAfter(1, o.plan) == Ok(1_000_000_000);
    assert IntervalAfter(2, o.plan) == Ok(1_000_000_000);
    assert PlanAccepted(o.plan);
    assert !SafeAfter(2, o.plan);
    es := UnsafePolicyConflicts(o);
  }
}

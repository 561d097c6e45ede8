/** Calls of one activity over any number of invocations, as a workflow body makes them.

    A call reads the activity through the run cache of its invocation. The cache answers
    from memory once it has loaded or written the record, and it learns nothing from a
    write that reports an error, whether or not that write landed. A body may call the
    same activity again in one invocation; with claims a call reads the bucket once more
    before it runs anything. Retry timers are always read past the cache. */
module ActivityCalls {
  import opened Basics
  import opened RetryPolicies
  import opened TimerKinds
  import opened ActivityRetry

  // Which bodies, which faults and which protection a run may contain.
  datatype Setting = Setting(
    callsAgain: bool,        // a body calls the activity again after an error in the same invocation
    ambiguousWrites: bool,   // a record write may land and still report an error
    claims: bool)            // calls hold a claim, and refresh the record under it

  // Whether a claim is free is left open: others may hold, leak or release it at any time.
  datatype ClaimTry = Free | Taken | ClaimFails

  /** `bucket` is what is stored and where the live call stands; `cached` what this invocation's
      cache knows of the activity record, if it knows anything. */
  datatype World = World(bucket: State, cached: Option<Option<ActivityRecord>>)

  datatype Move =
    | Do(event: Event)
    | Call(readOk: bool, write: WriteOutcome, readable: bool)
    | Claim(answer: ClaimTry, write: WriteOutcome, readable: bool)

  function View(w: World): Option<ActivityRecord> { if w.cached.Some? then w.cached.value else w.bucket.activity }

  /** The state as the call believes it to be. */
  function Believed(w: World): State { w.bucket.(activity := View(w)) }

  /** A call may start an invocation, or follow an earlier call that returned. */
  predicate MayCall(c: Setting, pc: Pc) { pc.Idle? || (c.callsAgain && pc.Stopped?) }

  /** After its first read a call runs the body, or claims the activity first. */
  function Entered(c: Setting, w: World, t: State): World {
    World(t.(activity := w.bucket.activity, pc := if c.claims && t.pc.Running? then Claiming else t.pc), Some(View(w)))
  }

  /** Under a claim, or when somebody else holds it, the call reads the bucket once more. */
  function Claimed(w: World, o: Options, m: Move): World
    requires m.Claim?
  {
    match m.answer
    case ClaimFails => w.(bucket := w.bucket.(pc := Stopped(Infrastructure)))
    case Free => World(Enter(w.bucket, o, m.write, m.readable), Some(w.bucket.activity))
    case Taken =>
      World(if Terminal(w.bucket.activity) then Enter(w.bucket, o, m.write, m.readable)
            else w.bucket.(pc := Stopped(Busy)), Some(w.bucket.activity))
  }

  function Wrote(c: Setting, w: World, o: Options, write: WriteOutcome): World {
    if write.Ambiguous? && !c.ambiguousWrites then w
    else
      World(Next(w.bucket, o, ActivityWrite(write)),
            if write.Acked? && (w.bucket.pc.Publish? || w.bucket.pc.Persist?) then Some(Some(w.bucket.pc.record))
            else w.cached)
  }

  function Moved(c: Setting, w: World, o: Options, m: Move): World {
    match m
    case Call(readOk, write, readable) =>
      if !MayCall(c, w.bucket.pc) then w
      else if w.cached.None? && !readOk then w.(bucket := w.bucket.(pc := Stopped(Infrastructure)))
      else Entered(c, w, Enter(Believed(w), o, write, readable))
    case Claim(_, _, _) => if w.bucket.pc.Claiming? then Claimed(w, o, m) else w
    case Do(event) =>
      match event
      case Invoke(_, _) => w
      // The invocation ends, in a crash or by returning; the next one has a cache of its own.
      case Crash => World(Next(w.bucket, o, Crash), None)
      case ActivityWrite(write) => Wrote(c, w, o, write)
      case _ => World(Next(w.bucket, o, event), w.cached)
  }

  function Reached(c: Setting, o: Options, ms: seq<Move>): World {
    if ms == [] then World(Start(), None) else Moved(c, Reached(c, o, ms[..|ms| - 1]), o, ms[|ms| - 1])
  }

  /** The cache cannot mislead a call into running the body. */
  predicate Protected(c: Setting) { !(c.callsAgain && c.ambiguousWrites && !c.claims) }

  // ---- What every run keeps, in every setting ------------------------------------------

  /** The stored records by themselves, whatever the live call believes. */
  predicate BucketSound(s: State, o: Options) {
    && (s.activity.Some? ==> RecordValid(s.activity.value, o))
    && Paired(s)
    && (s.timer.Some? && s.timer.value.status == Fired ==> Terminal(s.activity))
  }

  predicate Active(pc: Pc) { !pc.Idle? && !pc.Stopped? && !pc.Claiming? }

  predicate Kept(w: World, o: Options) {
    && Shape(Believed(w), o)
    && BucketSound(w.bucket, o)
    && (Terminal(View(w)) ==> View(w) == w.bucket.activity)
    && (w.bucket.pc.Idle? ==> w.cached.None?)
    && (Active(w.bucket.pc) ==> w.cached.Some?)
  }

  /** Between calls the bucket alone has the shape a call needs. */
  lemma BucketShape(w: World, o: Options)
    requires Kept(w, o) && !Active(w.bucket.pc)
    ensures Shape(w.bucket, o) && Shape(w.bucket.(pc := Idle), o)
  {
  }

  /** How a timer may change: it stays, is retired where it stands, or moves forward. */
  predicate TimerMoves(s: State, t: State) {
    || t.timer == s.timer
    || (s.timer.None? && t.timer.Some?)
    || (s.timer.Some? && t.timer.Some? && t.timer.value.fireAt > s.timer.value.fireAt)
    || (s.timer.Some? && t.timer.Some? && t.timer.value.fireAt == s.timer.value.fireAt && Terminal(t.activity))
  }

  /** What `ShapeEnter` says of entering. */
  predicate EnteredFrom(s: State, t: State, o: Options, write: WriteOutcome) {
    && Shape(t, o) && t.now == s.now && t.activity == s.activity
    && (t.timer == s.timer || (Terminal(s.activity) && t.timer == Retired(s, o, write)))
    && (t.pc.Stopped? || (t.pc.Running? && RecordAttempts(s.activity, t.pc.attempts)))
  }

  lemma KeptEntered(c: Setting, w: World, o: Options, t: State, write: WriteOutcome)
    requires Kept(w, o) && !Active(w.bucket.pc) && EnteredFrom(Believed(w), t, o, write)
    ensures Kept(Entered(c, w, t), o) && TimerMoves(w.bucket, Entered(c, w, t).bucket)
  {
  }

  lemma KeptRefreshed(w: World, o: Options, t: State, write: WriteOutcome)
    requires Kept(w, o) && !Active(w.bucket.pc) && EnteredFrom(w.bucket, t, o, write)
    ensures Kept(World(t, Some(w.bucket.activity)), o) && TimerMoves(w.bucket, t)
  {
  }

  lemma KeptClaimed(w: World, o: Options, m: Move)
    requires OptionsAccepted(o) && Kept(w, o) && m.Claim? && w.bucket.pc.Claiming?
    ensures Kept(Claimed(w, o, m), o) && TimerMoves(w.bucket, Claimed(w, o, m).bucket)
    ensures Claimed(w, o, m).bucket.activity == w.bucket.activity
  {
    BucketShape(w, o);
    if m.answer.Free? || (m.answer.Taken? && Terminal(w.bucket.activity)) {
      ShapeEnter(w.bucket, o, m.write, m.readable);
      KeptRefreshed(w, o, Enter(w.bucket, o, m.write, m.readable), m.write);
    }
  }

  /** A step that reads no record is the same step of the believed state. */
  lemma BelievedSteps(w: World, o: Options, e: Event)
    requires e.Body? || e.TimerWrite?
    ensures Believed(World(Next(w.bucket, o, e), w.cached)) == Next(Believed(w), o, e)
    ensures w.cached.Some? ==> Next(w.bucket, o, e).activity == w.bucket.activity
  {
  }

  lemma KeptTimerWrite(w: World, o: Options, write: WriteOutcome, readable: bool)
    requires OptionsAccepted(o) && Kept(w, o) && w.bucket.pc.Prepare?
    ensures var t := World(Next(w.bucket, o, TimerWrite(write, readable)), w.cached);
            Kept(t, o) && t.bucket.activity == w.bucket.activity && TimerMoves(w.bucket, t.bucket)
  {
    ShapeTimerWrite(Believed(w), o, write, readable);
    var t := World(Next(w.bucket, o, TimerWrite(write, readable)), w.cached);
    assert Believed(t) == Next(Believed(w), o, TimerWrite(write, readable));
  }

  /** A write the caller sees fail leaves its belief where a lost write would. */
  lemma BelievedWrite(c: Setting, w: World, o: Options, write: WriteOutcome)
    requires Kept(w, o) && Active(w.bucket.pc) && (write.Ambiguous? ==> c.ambiguousWrites)
    ensures Believed(Wrote(c, w, o, write)) == Next(Believed(w), o, ActivityWrite(if write.Acked? then Acked else Lost))
  {
  }

  lemma KeptWrote(c: Setting, w: World, o: Options, write: WriteOutcome)
    requires OptionsAccepted(o) && Kept(w, o) && Active(w.bucket.pc)
    ensures Kept(Wrote(c, w, o, write), o) && Wrote(c, w, o, write).bucket.timer == w.bucket.timer
  {
    if write.Ambiguous? ==> c.ambiguousWrites {
      ShapeActivityWrite(Believed(w), o, if write.Acked? then Acked else Lost);
      BelievedWrite(c, w, o, write);
    }
  }

  lemma KeptCall(c: Setting, w: World, o: Options, m: Move)
    requires OptionsAccepted(o) && Kept(w, o) && m.Call?
    ensures Kept(Moved(c, w, o, m), o) && TimerMoves(w.bucket, Moved(c, w, o, m).bucket)
    ensures Moved(c, w, o, m).bucket.activity == w.bucket.activity
  {
    if MayCall(c, w.bucket.pc) {
      ShapeEnter(Believed(w), o, m.write, m.readable);
      KeptEntered(c, w, o, Enter(Believed(w), o, m.write, m.readable), m.write);
    }
  }

  lemma KeptBody(w: World, o: Options, result: BodyOutcome)
    requires OptionsAccepted(o) && Kept(w, o) && w.bucket.pc.Running?
    ensures Kept(World(Next(w.bucket, o, Body(result)), w.cached), o)
  {
    var pc := RunBody(Believed(w), o, w.bucket.pc.attempts, result);
    assert Kept(w.(bucket := w.bucket.(pc := pc)), o) by {
      BodyRecordValid(Believed(w), o, w.bucket.pc.attempts, result);
      KeptAttempt(w, o, pc);
    }
    BodySteps(w, o, result);
  }

  lemma BodySteps(w: World, o: Options, result: BodyOutcome)
    requires w.bucket.pc.Running?
    ensures World(Next(w.bucket, o, Body(result)), w.cached) ==
            w.(bucket := w.bucket.(pc := RunBody(Believed(w), o, w.bucket.pc.attempts, result)))
  {
  }

  lemma KeptAttempt(w: World, o: Options, pc: Pc)
    requires Kept(w, o) && w.bucket.pc.Running? && AttemptDone(Believed(w), o, w.bucket.pc.attempts, pc)
    ensures Kept(w.(bucket := w.bucket.(pc := pc)), o)
  {
    ShapeAttemptDone(Believed(w), o, pc);
    var t := w.(bucket := w.bucket.(pc := pc));
    assert Believed(t) == Believed(w).(pc := pc);
  }

  lemma KeptQuietly(w: World, o: Options, event: Event)
    requires Kept(w, o) && (event.Tick? || event.RetireWrite?)
    ensures var t := World(Next(w.bucket, o, event), w.cached);
            Kept(t, o) && TimerMoves(w.bucket, t.bucket)
  {
  }

  lemma KeptDo(c: Setting, w: World, o: Options, event: Event)
    requires OptionsAccepted(o) && Kept(w, o)
    ensures Kept(Moved(c, w, o, Do(event)), o) && TimerMoves(w.bucket, Moved(c, w, o, Do(event)).bucket)
  {
    match event
    case Invoke(_, _) =>
    case Crash =>
    case ActivityWrite(write) => if Active(w.bucket.pc) { KeptWrote(c, w, o, write); }
    case TimerWrite(write, readable) => if w.bucket.pc.Prepare? { KeptTimerWrite(w, o, write, readable); }
    case Body(result) => if w.bucket.pc.Running? { KeptBody(w, o, result); }
    case Tick(_) => KeptQuietly(w, o, event);
    case RetireWrite(_) => KeptQuietly(w, o, event);
  }

  lemma KeptMove(c: Setting, w: World, o: Options, m: Move)
    requires OptionsAccepted(o) && Kept(w, o)
    ensures Kept(Moved(c, w, o, m), o) && TimerMoves(w.bucket, Moved(c, w, o, m).bucket)
  {
    match m
    case Call(_, _, _) => KeptCall(c, w, o, m);
    case Claim(_, _, _) => if w.bucket.pc.Claiming? { KeptClaimed(w, o, m); }
    case Do(event) => KeptDo(c, w, o, event);
  }

  lemma {:induction false} KeptRun(c: Setting, o: Options, ms: seq<Move>)
    requires OptionsAccepted(o)
    ensures Kept(Reached(c, o, ms), o)
  {
    if ms != [] {
      KeptRun(c, o, ms[..|ms| - 1]);
      KeptMove(c, Reached(c, o, ms[..|ms| - 1]), o, ms[|ms| - 1]);
    }
  }

  lemma Snoc(c: Setting, o: Options, ms: seq<Move>, m: Move)
    ensures Reached(c, o, ms + [m]) == Moved(c, Reached(c, o, ms), o, m)
  {
    assert (ms + [m])[..|ms + [m]| - 1] == ms;
  }

  /** In every setting and at every cut, a durable RETRYING record is paired with a SCHEDULED timer
      that names its activity and fires no earlier, every RETRYING record passes the replay
      checks, and attempts are numbered within the policy's bound. */
  lemma StoredStateIsReplayable(c: Setting, o: Options, ms: seq<Move>)
    requires OptionsAccepted(o)
    ensures var s := Reached(c, o, ms).bucket;
            && Paired(s)
            && (s.activity.Some? && s.activity.value.status == Retrying ==> AssertRetrying(s.activity.value, o))
            && (s.activity.Some? ==> AttemptsNumbered(s.activity.value, o.plan))
            && (s.timer.Some? ==> TimerWellFormed(s.timer.value, o))
            && (s.timer.Some? && s.timer.value.status == Fired ==> Terminal(s.activity))
  {
    KeptRun(c, o, ms);
  }

  /** In every setting, from any cut to any later one, the wake never moves back. */
  lemma {:induction false} WakeNeverMovesBack(c: Setting, o: Options, ms: seq<Move>, more: seq<Move>)
    requires OptionsAccepted(o) && Reached(c, o, ms).bucket.timer.Some?
    ensures var s, t := Reached(c, o, ms).bucket, Reached(c, o, ms + more).bucket;
            t.timer.Some? && t.timer.value.fireAt >= s.timer.value.fireAt
    decreases |more|
  {
    if more == [] {
      assert ms + more == ms;
    } else {
      var init, last := more[..|more| - 1], more[|more| - 1];
      WakeNeverMovesBack(c, o, ms, init);
      KeptRun(c, o, ms + init);
      assert ms + more == (ms + init) + [last];
      Snoc(c, o, ms + init, last);
      KeptMove(c, Reached(c, o, ms + init), o, last);
    }
  }

  // ---- Protected settings: what the call believes is one of two states of the one-call machine --

  /** While a call is under way it believes what is stored; otherwise both the bucket and what the
      cache still answers are states the one-call machine can be in. */
  predicate Tracks(c: Setting, w: World, o: Options) {
    && Kept(w, o) && Inv(w.bucket, o) && Inv(Believed(w), o)
    && (Active(w.bucket.pc) ==> View(w) == w.bucket.activity)
    && (!c.ambiguousWrites ==> View(w) == w.bucket.activity)
  }

  lemma TracksEntered(c: Setting, w: World, o: Options, t: State, write: WriteOutcome)
    requires Protected(c) && Tracks(c, w, o) && MayCall(c, w.bucket.pc)
    requires EnteredFrom(Believed(w), t, o, write) && Inv(t, o) && Kept(Entered(c, w, t), o)
    ensures Tracks(c, Entered(c, w, t), o) && Forward(w.bucket, Entered(c, w, t).bucket)
  {
  }

  lemma TracksCall(c: Setting, w: World, o: Options, m: Move)
    requires OptionsAccepted(o) && Protected(c) && Tracks(c, w, o) && m.Call?
    ensures Tracks(c, Moved(c, w, o, m), o) && Forward(w.bucket, Moved(c, w, o, m).bucket)
  {
    KeptCall(c, w, o, m);
    if MayCall(c, w.bucket.pc) && (w.cached.Some? || m.readOk) {
      ShapeEnter(Believed(w), o, m.write, m.readable);
      InvEnter(Believed(w), o, m.write, m.readable);
      TracksEntered(c, w, o, Enter(Believed(w), o, m.write, m.readable), m.write);
    }
  }

  lemma TracksClaimed(c: Setting, w: World, o: Options, m: Move)
    requires OptionsAccepted(o) && Tracks(c, w, o) && m.Claim? && w.bucket.pc.Claiming?
    ensures Tracks(c, Claimed(w, o, m), o) && Forward(w.bucket, Claimed(w, o, m).bucket)
  {
    KeptClaimed(w, o, m);
    ShapeEnter(w.bucket, o, m.write, m.readable);
    InvEnter(w.bucket, o, m.write, m.readable);
  }

  lemma TracksWrote(c: Setting, w: World, o: Options, write: WriteOutcome)
    requires OptionsAccepted(o) && Tracks(c, w, o) && Active(w.bucket.pc)
    ensures Tracks(c, Wrote(c, w, o, write), o)
  {
    KeptWrote(c, w, o, write);
    if write.Ambiguous? ==> c.ambiguousWrites {
      InvActivityWrite(w.bucket, o, write);
      InvActivityWrite(Believed(w), o, if write.Acked? then Acked else Lost);
      BelievedWrite(c, w, o, write);
    }
  }

  lemma TracksDo(c: Setting, w: World, o: Options, event: Event)
    requires OptionsAccepted(o) && Tracks(c, w, o)
    ensures Tracks(c, Moved(c, w, o, Do(event)), o) && Forward(w.bucket, Moved(c, w, o, Do(event)).bucket)
  {
    KeptDo(c, w, o, event);
    ForwardStep(w.bucket, o, event);
    InvStep(w.bucket, o, event);
    match event
    case Invoke(_, _) =>
    case Crash =>
    case ActivityWrite(write) => if Active(w.bucket.pc) { TracksWrote(c, w, o, write); }
    case _ => InvStep(Believed(w), o, event);
  }

  lemma TracksMove(c: Setting, w: World, o: Options, m: Move)
    requires OptionsAccepted(o) && Protected(c) && Tracks(c, w, o)
    ensures Tracks(c, Moved(c, w, o, m), o) && Forward(w.bucket, Moved(c, w, o, m).bucket)
  {
    match m
    case Call(_, _, _) => TracksCall(c, w, o, m);
    case Claim(_, _, _) => if w.bucket.pc.Claiming? { TracksClaimed(c, w, o, m); }
    case Do(event) => TracksDo(c, w, o, event);
  }

  lemma {:induction false} TracksRun(c: Setting, o: Options, ms: seq<Move>)
    requires OptionsAccepted(o) && Protected(c)
    ensures Tracks(c, Reached(c, o, ms), o)
  {
    if ms != [] {
      TracksRun(c, o, ms[..|ms| - 1]);
      TracksMove(c, Reached(c, o, ms[..|ms| - 1]), o, ms[|ms| - 1]);
    }
  }

  lemma {:induction false} RunsOnlyMoveForward(c: Setting, o: Options, ms: seq<Move>, more: seq<Move>)
    requires OptionsAccepted(o) && Protected(c)
    ensures Forward(Reached(c, o, ms).bucket, Reached(c, o, ms + more).bucket)
    decreases |more|
  {
    if more == [] {
      assert ms + more == ms;
    } else {
      var init, last := more[..|more| - 1], more[|more| - 1];
      RunsOnlyMoveForward(c, o, ms, init);
      TracksRun(c, o, ms + init);
      assert ms + more == (ms + init) + [last];
      Snoc(c, o, ms + init, last);
      TracksMove(c, Reached(c, o, ms + init), o, last);
      ForwardTransitive(Reached(c, o, ms).bucket, Reached(c, o, ms + init).bucket, Reached(c, o, ms + more).bucket);
    }
  }

  // ---- A second call behind a masked write ---------------------------------------------------

  predicate RunsBehindTerminal(w: World) { w.bucket.pc.Running? && Terminal(w.bucket.activity) }

  /** Nothing `more` does undoes what `ms` stored, and no body runs behind a terminal record. */
  predicate StaysFinal(c: Setting, o: Options, ms: seq<Move>, more: seq<Move>) {
    && Forward(Reached(c, o, ms).bucket, Reached(c, o, ms + more).bucket)
    && !RunsBehindTerminal(Reached(c, o, ms))
  }

  /** The result is stored behind an error; a second call, answered by the remembered absence, runs
      the body again and replaces the stored result by its own. */
  lemma SecondCallOverwritesResult(c: Setting, o: Options, stored: int, second: int) returns (ms: seq<Move>, more: seq<Move>)
    requires OptionsAccepted(o) && !Protected(c)
    ensures RunsBehindTerminal(Reached(c, o, ms))
    ensures var s, t := Reached(c, o, ms).bucket, Reached(c, o, ms + more).bucket;
            && s.activity.Some? && s.activity.value.status == Completed && s.activity.value.result == Some(stored)
            && t.activity.Some? && t.activity.value.status == Completed && t.activity.value.result == Some(second)
  {
    var call, returns1, masked := Call(true, Acked, true), Do(Body(Returned(stored))), Do(ActivityWrite(Ambiguous));
    var returns2, acked := Do(Body(Returned(second))), Do(ActivityWrite(Acked));
    Snoc(c, o, [], call);
    Snoc(c, o, [] + [call], returns1);
    Snoc(c, o, [] + [call] + [returns1], masked);
    Snoc(c, o, [] + [call] + [returns1] + [masked], call);
    ms := [] + [call] + [returns1] + [masked] + [call];
    var record := RecordWith(o, Completed, [Attempt(1, None)], None, Some(stored), None);
    assert [] + [Attempt(1, None)] == [Attempt(1, None)];
    assert Reached(c, o, [] + [call] + [returns1] + [masked]) ==
           World(State(0, Some(record), None, Stopped(Infrastructure)), Some(None));
    assert Reached(c, o, ms) == World(State(0, Some(record), None, Running([])), Some(None));
    Snoc(c, o, ms, returns2);
    Snoc(c, o, ms + [returns2], acked);
    more := [returns2, acked];
    assert ms + more == ms + [returns2] + [acked];
  }

  /** A terminal record never changes, attempt history only grows and the body never runs behind a
      terminal record, in all runs, exactly when no body calls again after a masked write without
      holding a claim. */
  lemma TerminalIsFinalExactly(c: Setting, o: Options)
    requires OptionsAccepted(o)
    ensures (forall ms, more :: StaysFinal(c, o, ms, more)) <==> Protected(c)
  {
    if Protected(c) {
      forall ms, more ensures StaysFinal(c, o, ms, more) {
        RunsOnlyMoveForward(c, o, ms, more);
        TracksRun(c, o, ms);
      }
    } else {
      var ms, more := SecondCallOverwritesResult(c, o, 1, 2);
      assert !StaysFinal(c, o, ms, more);
    }
  }

  // ---- When a call conflicts ---------------------------------------------------------------

  predicate Conflicting(c: Setting, o: Options, ms: seq<Move>) { Reached(c, o, ms).bucket.pc == Stopped(Conflict) }

  /** In every setting, the first read of a call conflicts exactly when the timer does not fit the
      record the cache answers with. */
  lemma CallConflictsExactly(c: Setting, w: World, o: Options, m: Move)
    requires OptionsAccepted(o) && Kept(w, o) && m.Call? && MayCall(c, w.bucket.pc) && (w.cached.Some? || m.readOk)
    ensures Moved(c, w, o, m).bucket.pc == Stopped(Conflict) <==> TimerRejected(Believed(w), o)
  {
    EnterConflictsExactlyOnRejectedTimer(Believed(w), o, m.write, m.readable);
  }

  /** Under a free claim it conflicts exactly when the timer does not fit the stored record. */
  lemma ClaimConflictsExactly(c: Setting, w: World, o: Options, m: Move)
    requires OptionsAccepted(o) && Kept(w, o) && m.Claim? && w.bucket.pc.Claiming?
    ensures Moved(c, w, o, m).bucket.pc == Stopped(Conflict) <==> m.answer.Free? && TimerRejected(w.bucket, o)
  {
    BucketShape(w, o);
    EnterConflictsExactlyOnRejectedTimer(w.bucket, o, m.write, m.readable);
  }

  lemma NoConflictOutsideCalls(c: Setting, w: World, o: Options, event: Event)
    requires OptionsAccepted(o) && Kept(w, o) && w.bucket.pc != Stopped(Conflict)
    ensures Moved(c, w, o, Do(event)).bucket.pc != Stopped(Conflict)
  {
    if event.TimerWrite? && w.bucket.pc.Prepare? {
      EffectiveBounds(w.bucket.pc.record, o);
    } else if event.Body? && w.bucket.pc.Running? {
      BodyRecordValid(Believed(w), o, w.bucket.pc.attempts, event.result);
    }
  }

  /** A move acts on a record its timer does not fit: the one the cache answers a call with, or the
      stored one under a free claim. */
  predicate ActsOnMisfit(c: Setting, w: World, o: Options, m: Move)
    requires OptionsAccepted(o)
  {
    match m
    case Call(readOk, _, _) => MayCall(c, w.bucket.pc) && (w.cached.Some? || readOk) && TimerRejected(Believed(w), o)
    case Claim(answer, _, _) => w.bucket.pc.Claiming? && answer.Free? && TimerRejected(w.bucket, o)
    case Do(_) => false
  }

  /** In every setting and after any run, a move brings on a conflict exactly when it acts on such a
      record; no write, body or clock step ever does. */
  lemma RunConflictsExactly(c: Setting, o: Options, ms: seq<Move>, m: Move)
    requires OptionsAccepted(o) && !Conflicting(c, o, ms)
    ensures Conflicting(c, o, ms + [m]) <==> ActsOnMisfit(c, Reached(c, o, ms), o, m)
  {
    var w := Reached(c, o, ms);
    KeptRun(c, o, ms);
    Snoc(c, o, ms, m);
    match m
    case Call(readOk, _, _) =>
      if MayCall(c, w.bucket.pc) && (w.cached.Some? || readOk) { CallConflictsExactly(c, w, o, m); }
    case Claim(_, _, _) => if w.bucket.pc.Claiming? { ClaimConflictsExactly(c, w, o, m); }
    case Do(event) => NoConflictOutsideCalls(c, w, o, event);
  }

  // ---- Protected settings: the plan alone decides -----------------------------------------

  predicate PlainMove(m: Move) { m.Do? ==> PlainFailure(m.event) }

  predicate PlainMoves(ms: seq<Move>) { forall i :: 0 <= i < |ms| ==> PlainMove(ms[i]) }

  predicate PlainTracks(w: World, o: Options)
    requires OptionsAccepted(o)
  {
    Plain(w.bucket, o) && Plain(Believed(w), o)
  }

  lemma PlainTracksDo(c: Setting, w: World, o: Options, event: Event)
    requires OptionsAccepted(o) && SafeWithoutRetryAfter(o.plan) && Tracks(c, w, o) && PlainTracks(w, o) && PlainFailure(event)
    ensures PlainTracks(Moved(c, w, o, Do(event)), o)
  {
    PlainStep(w.bucket, o, event);
    match event
    case Invoke(_, _) =>
    case Crash =>
    case ActivityWrite(write) =>
      if Active(w.bucket.pc) && (write.Ambiguous? ==> c.ambiguousWrites) {
        PlainStep(Believed(w), o, ActivityWrite(if write.Acked? then Acked else Lost));
        BelievedWrite(c, w, o, write);
      }
    case _ => PlainStep(Believed(w), o, event);
  }

  lemma PlainTracksMove(c: Setting, w: World, o: Options, m: Move)
    requires OptionsAccepted(o) && SafeWithoutRetryAfter(o.plan) && Protected(c)
    requires Tracks(c, w, o) && PlainTracks(w, o) && PlainMove(m)
    ensures PlainTracks(Moved(c, w, o, m), o)
  {
    match m
    case Call(_, _, _) => PlainEntered(c, w, o, m);
    case Claim(_, _, _) => if w.bucket.pc.Claiming? { PlainClaimed(w, o, m); }
    case Do(event) => PlainTracksDo(c, w, o, event);
  }

  lemma PlainEntered(c: Setting, w: World, o: Options, m: Move)
    requires OptionsAccepted(o) && Protected(c) && Tracks(c, w, o) && PlainTracks(w, o) && m.Call?
    ensures PlainTracks(Moved(c, w, o, m), o)
  {
    if MayCall(c, w.bucket.pc) && (w.cached.Some? || m.readOk) {
      PlainEnter(Believed(w), o, m.write, m.readable);
      ShapeEnter(Believed(w), o, m.write, m.readable);
      PlainEnteredFrom(c, w, o, Enter(Believed(w), o, m.write, m.readable), m.write);
    }
  }

  lemma PlainEnteredFrom(c: Setting, w: World, o: Options, t: State, write: WriteOutcome)
    requires OptionsAccepted(o) && Protected(c) && Tracks(c, w, o) && PlainTracks(w, o) && MayCall(c, w.bucket.pc)
    requires EnteredFrom(Believed(w), t, o, write) && Plain(t, o)
    ensures PlainTracks(Entered(c, w, t), o)
  {
  }

  lemma PlainClaimed(w: World, o: Options, m: Move)
    requires OptionsAccepted(o) && Inv(w.bucket, o) && PlainTracks(w, o) && m.Claim? && w.bucket.pc.Claiming?
    ensures PlainTracks(Claimed(w, o, m), o)
  {
    PlainEnter(w.bucket, o, m.write, m.readable);
    ShapeEnter(w.bucket, o, m.write, m.readable);
  }

  lemma {:induction false} PlainTracksRun(c: Setting, o: Options, ms: seq<Move>)
    requires OptionsAccepted(o) && SafeWithoutRetryAfter(o.plan) && Protected(c) && PlainMoves(ms)
    ensures PlainTracks(Reached(c, o, ms), o)
  {
    if ms != [] {
      var init := ms[..|ms| - 1];
      PlainTracksRun(c, o, init);
      TracksRun(c, o, init);
      assert PlainMove(ms[|ms| - 1]);
      PlainTracksMove(c, Reached(c, o, init), o, ms[|ms| - 1]);
    }
  }

  /** Without a stale timer beside the stored or the remembered record, no move conflicts. */
  lemma NoStaleTimerNoConflict(c: Setting, w: World, o: Options, m: Move)
    requires OptionsAccepted(o) && Tracks(c, w, o) && w.bucket.pc != Stopped(Conflict)
    requires !StaleTimer(w.bucket, o) && !StaleTimer(Believed(w), o)
    ensures Moved(c, w, o, m).bucket.pc != Stopped(Conflict)
  {
    match m
    case Call(_, write, readable) => EnterConflictsExactlyOnStaleTimer(Believed(w), o, write, readable);
    case Claim(_, write, readable) => EnterConflictsExactlyOnStaleTimer(w.bucket, o, write, readable);
    case Do(event) => NoConflictOutsideCalls(c, w, o, event);
  }

  lemma {:induction false} SafePlainNeverConflicts(c: Setting, o: Options, ms: seq<Move>)
    requires OptionsAccepted(o) && SafeWithoutRetryAfter(o.plan) && Protected(c) && PlainMoves(ms)
    ensures !Conflicting(c, o, ms)
  {
    if ms != [] {
      var init := ms[..|ms| - 1];
      var w := Reached(c, o, init);
      SafePlainNeverConflicts(c, o, init);
      TracksRun(c, o, init);
      PlainTracksRun(c, o, init);
      PlainHasNoStaleTimer(w.bucket, o);
      PlainHasNoStaleTimer(Believed(w), o);
      NoStaleTimerNoConflict(c, w, o, ms[|ms| - 1]);
    }
  }

  lemma {:induction false} SafePolicyNeverConflicts(c: Setting, o: Options, ms: seq<Move>)
    requires OptionsAccepted(o) && SafeForAnyFailure(o.plan) && Protected(c)
    ensures !Conflicting(c, o, ms)
  {
    if ms != [] {
      var init := ms[..|ms| - 1];
      var w := Reached(c, o, init);
      SafePolicyNeverConflicts(c, o, init);
      TracksRun(c, o, init);
      SafePolicyHasNoStaleTimer(w.bucket, o);
      SafePolicyHasNoStaleTimer(Believed(w), o);
      NoStaleTimerNoConflict(c, w, o, ms[|ms| - 1]);
    }
  }

  // ---- Runs of the one-call machine are runs in every setting --------------------------------

  lemma PlainSnoc(ms: seq<Move>, m: Move)
    ensures PlainMoves(ms) && PlainMove(m) ==> PlainMoves(ms + [m])
  {
  }

  /** What an ordinary run leaves behind, in whatever setting. */
  predicate Settled(w: World) {
    && View(w) == w.bucket.activity && (w.bucket.pc.Idle? <==> w.cached.None?) && !w.bucket.pc.Claiming?
  }

  /** One ordinary call: the first read, and under claims the refresh, which changes nothing. */
  lemma LiftedCall(c: Setting, o: Options, ms: seq<Move>) returns (more: seq<Move>)
    requires OptionsAccepted(o) && Settled(Reached(c, o, ms)) && Reached(c, o, ms).bucket.pc.Idle?
    requires Inv(Reached(c, o, ms).bucket, o)
    ensures Settled(Reached(c, o, more)) && (PlainMoves(ms) ==> PlainMoves(more))
    ensures Reached(c, o, more).bucket == Enter(Reached(c, o, ms).bucket, o, Acked, true)
  {
    var w, call, claim := Reached(c, o, ms), Call(true, Acked, true), Claim(Free, Acked, true);
    var t := Enter(w.bucket, o, Acked, true);
    ShapeEnter(w.bucket, o, Acked, true);
    more := ms + [call];
    Snoc(c, o, ms, call);
    PlainSnoc(ms, call);
    if c.claims && t.pc.Running? {
      var waiting := w.bucket.(pc := Claiming);
      assert Reached(c, o, more) == World(waiting, Some(w.bucket.activity));
      SameEntry(w.bucket, waiting, o);
      Snoc(c, o, more, claim);
      PlainSnoc(more, claim);
      more := more + [claim];
    }
  }

  /** Entering looks at the records and the clock, not at where the call stood. */
  lemma SameEntry(s: State, t: State, o: Options)
    requires t == s.(pc := t.pc)
    ensures Enter(t, o, Acked, true) == Enter(s, o, Acked, true)
  {
  }

  lemma {:induction false} Lifted(c: Setting, o: Options, es: seq<Event>) returns (ms: seq<Move>)
    requires OptionsAccepted(o) && OrdinaryRun(es)
    ensures Reached(c, o, ms).bucket == After(o, es) && Settled(Reached(c, o, ms))
    ensures RetryAfterFree(es) ==> PlainMoves(ms)
  {
    ms := [];
    if es != [] {
      var init, e := es[..|es| - 1], es[|es| - 1];
      assert Ordinary(e);
      ms := Lifted(c, o, init);
      InvRun(o, init);
      if e.Invoke? {
        if After(o, init).pc.Idle? { ms := LiftedCall(c, o, ms); }
      } else {
        Snoc(c, o, ms, Do(e));
        PlainSnoc(ms, Do(e));
        LiftedStep(c, Reached(c, o, ms), o, e);
        ms := ms + [Do(e)];
      }
    }
  }

  lemma LiftedStep(c: Setting, w: World, o: Options, e: Event)
    requires Settled(w) && Ordinary(e) && !e.Invoke?
    ensures Settled(Moved(c, w, o, Do(e))) && Moved(c, w, o, Do(e)).bucket == Next(w.bucket, o, e)
  {
  }

  // ---- Unprotected settings: any durable wait conflicts -----------------------------------------

  /** Calling again after the record of the last retryable attempt was stored behind an error runs
      that attempt once more, and moves the timer past what the stored record allows. Every later
      call conflicts. */
  lemma MaskedRetryConflicts(c: Setting, o: Options, ms: seq<Move>, code: Code, retryAfter: nat) returns (more: seq<Move>)
    requires OptionsAccepted(o) && !Protected(c) && Retryable(code, o) && o.plan.maxAttempts > 1 && o.plan.durableThreshold > 0
    requires Max(Wait(o.plan.maxAttempts - 1, o.plan), retryAfter) >= o.plan.durableThreshold
    requires var w := Reached(c, o, ms);
             Settled(w) && w.bucket.pc.Running? && |StoredAttempts(w.bucket.activity)| + 2 == o.plan.maxAttempts
    ensures Conflicting(c, o, more) && (PlainMoves(ms) && retryAfter == 0 ==> PlainMoves(more))
  {
    var w, d := Reached(c, o, ms), Max(Wait(o.plan.maxAttempts - 1, o.plan), retryAfter);
    KeptRun(c, o, ms);
    var fails, times, masked := Do(Body(Raised(Typed(code, retryAfter)))), Do(TimerWrite(Acked, true)), Do(ActivityWrite(Ambiguous));
    Snoc(c, o, ms, fails);
    Snoc(c, o, ms + [fails], times);
    Snoc(c, o, ms + [fails] + [times], masked);
    Snoc(c, o, ms + [fails] + [times] + [masked], Do(Tick(d)));
    var record := MaskedRetry(c, w, o, code, retryAfter);
    more := ms + [fails] + [times] + [masked] + [Do(Tick(d))];
    PlainSnoc(ms, fails);
    PlainSnoc(ms + [fails], times);
    PlainSnoc(ms + [fails] + [times], masked);
    PlainSnoc(ms + [fails] + [times] + [masked], Do(Tick(d)));
    more := RerunThenConflict(c, o, more, code, retryAfter, record, d);
  }

  /** The attempt fails, its timer is written, its record lands behind an error, and the wake passes. */
  lemma MaskedRetry(c: Setting, w: World, o: Options, code: Code, retryAfter: nat) returns (record: ActivityRecord)
    requires OptionsAccepted(o) && c.ambiguousWrites && Kept(w, o) && Settled(w) && w.bucket.pc.Running?
    requires Retryable(code, o) && o.plan.maxAttempts > 1 && o.plan.durableThreshold > 0
    requires |StoredAttempts(w.bucket.activity)| + 2 == o.plan.maxAttempts
    requires Max(Wait(o.plan.maxAttempts - 1, o.plan), retryAfter) >= o.plan.durableThreshold
    ensures var d := Max(Wait(o.plan.maxAttempts - 1, o.plan), retryAfter);
            var failed := Moved(c, w, o, Do(Body(Raised(Typed(code, retryAfter)))));
            var timed := Moved(c, failed, o, Do(TimerWrite(Acked, true)));
            var waited := Moved(c, Moved(c, timed, o, Do(ActivityWrite(Ambiguous))), o, Do(Tick(d)));
            MaskedAt(waited, o, record, d)
  {
    DurableFailure(w.bucket, o, code, retryAfter);
    record := Next(w.bucket, o, Body(Raised(Typed(code, retryAfter)))).pc.record;
  }

  lemma RerunThenConflict(c: Setting, o: Options, ms: seq<Move>, code: Code, retryAfter: nat, record: ActivityRecord, d: nat)
    returns (more: seq<Move>)
    requires OptionsAccepted(o) && !Protected(c) && Retryable(code, o) && o.plan.maxAttempts > 1
    requires d == Max(Wait(o.plan.maxAttempts - 1, o.plan), retryAfter) >= o.plan.durableThreshold > 0
    requires MaskedAt(Reached(c, o, ms), o, record, d)
    ensures Conflicting(c, o, more) && (PlainMoves(ms) && retryAfter == 0 ==> PlainMoves(more))
  {
    var w, call := Reached(c, o, ms), Call(true, Acked, true);
    var fails, times := Do(Body(Raised(Typed(code, retryAfter)))), Do(TimerWrite(Acked, true));
    KeptRun(c, o, ms);
    Snoc(c, o, ms, call);
    Snoc(c, o, ms + [call], fails);
    Snoc(c, o, ms + [call] + [fails], times);
    Snoc(c, o, ms + [call] + [fails] + [times], Do(Crash));
    var late := ms + [call] + [fails] + [times] + [Do(Crash)];
    RerunMovesTimer(c, w, o, code, retryAfter, record, d);
    KeptRun(c, o, late);
    CallConflictsExactly(c, Reached(c, o, late), o, call);
    Snoc(c, o, late, call);
    more := late + [call];
    PlainSnoc(ms, call);
    PlainSnoc(ms + [call], fails);
    PlainSnoc(ms + [call] + [fails], times);
    PlainSnoc(ms + [call] + [fails] + [times], Do(Crash));
    PlainSnoc(late, call);
  }

  /** A record of the last retryable attempt is stored and its wake has come, and the cache still
      answers with what was there before. */
  predicate MaskedAt(w: World, o: Options, record: ActivityRecord, d: nat) {
    && w.bucket.activity == Some(record) && w.bucket.pc == Stopped(Infrastructure) && w.cached.Some?
    && w.bucket.timer == Some(FreshTimer(o, d, w.bucket.now))
    && !Terminal(View(w)) && |StoredAttempts(View(w))| + 2 == o.plan.maxAttempts
    && (View(w).Some? ==> View(w).value.nextAttemptAt != Some(w.bucket.now))
    && record.status == Retrying && |record.attempts| + 1 == o.plan.maxAttempts
    && record.nextAttemptAt == Some(w.bucket.now)
  }

  /** The second call reruns the attempt and moves the timer on; then the invocation ends. */
  lemma RerunMovesTimer(c: Setting, w: World, o: Options, code: Code, retryAfter: nat, record: ActivityRecord, d: nat)
    requires OptionsAccepted(o) && !Protected(c) && Retryable(code, o) && o.plan.maxAttempts > 1
    requires d == Max(Wait(o.plan.maxAttempts - 1, o.plan), retryAfter) >= o.plan.durableThreshold > 0
    requires Kept(w, o) && MaskedAt(w, o, record, d)
    ensures var called := Moved(c, w, o, Call(true, Acked, true));
            var failed := Moved(c, called, o, Do(Body(Raised(Typed(code, retryAfter)))));
            Moved(c, Moved(c, failed, o, Do(TimerWrite(Acked, true))), o, Do(Crash)) ==
            World(State(w.bucket.now, Some(record), Some(FreshTimer(o, d, w.bucket.now + d)), Idle), None)
  {
    StaleCallRuns(c, w, o);
    var running := w.(bucket := w.bucket.(pc := Running(StoredAttempts(View(w)))));
    var fails, times := Body(Raised(Typed(code, retryAfter))), TimerWrite(Acked, true);
    KeptCall(c, w, o, Call(true, Acked, true));
    DurableFailure(Believed(running), o, code, retryAfter);
    BelievedSteps(running, o, fails);
    BelievedSteps(World(Next(running.bucket, o, fails), running.cached), o, times);
  }

  /** The remembered record accepts the timer of the attempt after it, so the call goes on. */
  lemma StaleCallRuns(c: Setting, w: World, o: Options)
    requires OptionsAccepted(o) && !Protected(c) && Kept(w, o) && w.bucket.pc.Stopped? && w.cached.Some?
    requires !Terminal(View(w)) && |StoredAttempts(View(w))| + 2 == o.plan.maxAttempts
    requires w.bucket.timer.Some? && w.bucket.timer.value.fireAt <= w.bucket.now
    requires w.bucket.timer.value.duration >= Wait(o.plan.maxAttempts - 1, o.plan)
    requires View(w).Some? ==> View(w).value.nextAttemptAt != Some(w.bucket.timer.value.fireAt)
    ensures Moved(c, w, o, Call(true, Acked, true)) ==
            w.(bucket := w.bucket.(pc := Running(StoredAttempts(View(w)))))
  {
    EnterRuns(Believed(w), o);
    EnterConflictsExactlyOnRejectedTimer(Believed(w), o, Acked, true);
    ShapeEnter(Believed(w), o, Acked, true);
  }

  /** So in an unprotected setting some run conflicts for every plan with a durable wait to give. */
  lemma UnprotectedConflicts(c: Setting, o: Options, retryAfter: nat) returns (ms: seq<Move>)
    requires OptionsAccepted(o) && !Protected(c) && o.plan.maxAttempts > 1 && o.plan.durableThreshold > 0
    requires Max(Wait(o.plan.maxAttempts - 1, o.plan), retryAfter) >= o.plan.durableThreshold
    ensures Conflicting(c, o, ms) && (retryAfter == 0 ==> PlainMoves(ms))
  {
    var code := CodeBound(o.plan.nonRetryable);
    var es := ReachAttempts(o, o.plan.maxAttempts - 2, code);
    if !Conflicts(o, es) { es := ReachBody(o, es); }
    ms := Lifted(c, o, es);
    if !Conflicts(o, es) { ms := MaskedRetryConflicts(c, o, ms, code, retryAfter); }
  }

  // ---- Plans that never wait durably ------------------------------------------------------

  /** Without Retry-After no wait of the plan reaches the threshold. */
  predicate NoDurableWait(plan: RetryPlan)
    requires PlanAccepted(plan)
  {
    plan.maxAttempts > 1 ==> !DurableAt(1, plan) && !DurableAt(plan.maxAttempts - 1, plan)
  }

  /** No attempt ever prepares a timer: the plan has no threshold or no retries, or its waits stay
      below it and failures carry no Retry-After. */
  predicate NeverDurable(plan: RetryPlan, plain: bool)
    requires PlanAccepted(plan)
  {
    plan.durableThreshold <= 0 || plan.maxAttempts <= 1 || (plain && NoDurableWait(plan))
  }

  predicate Untimed(w: World, o: Options, plain: bool) {
    && w.bucket.timer.None? && !w.bucket.pc.Prepare? && !w.bucket.pc.Publish?
    && (plain ==> NoRetryAfter(StoredAttempts(w.bucket.activity)) && NoRetryAfter(StoredAttempts(View(w))))
    && (plain && w.bucket.pc.Running? ==> NoRetryAfter(w.bucket.pc.attempts))
    && (plain && w.bucket.pc.Persist? ==> NoRetryAfter(w.bucket.pc.record.attempts))
  }

  lemma WaitsStayBelow(plan: RetryPlan, n: nat)
    requires PlanAccepted(plan) && NoDurableWait(plan) && 1 <= n < plan.maxAttempts
    ensures !DurableAt(n, plan)
  {
    WaitMonotone(1, n, plan);
    WaitMonotone(n, plan.maxAttempts - 1, plan);
  }

  lemma RecordsStayUntimed(record: ActivityRecord, o: Options, plain: bool)
    requires OptionsAccepted(o) && NeverDurable(o.plan, plain) && RecordValid(record, o)
    requires plain ==> NoRetryAfter(record.attempts)
    ensures record.status == Retrying ==> record.nextAttemptAt.None?
  {
    if record.status == Retrying {
      EffectiveBounds(record, o);
      if plain && NoDurableWait(o.plan) {
        PlainInterval(record, o);
        WaitsStayBelow(o.plan, |record.attempts|);
      }
    }
  }

  lemma UntimedBody(w: World, o: Options, plain: bool, result: BodyOutcome)
    requires OptionsAccepted(o) && NeverDurable(o.plan, plain) && Kept(w, o) && Untimed(w, o, plain) && w.bucket.pc.Running?
    requires plain ==> PlainFailure(Body(result))
    ensures Untimed(World(Next(w.bucket, o, Body(result)), w.cached), o, plain)
  {
    var pc := RunBody(Believed(w), o, w.bucket.pc.attempts, result);
    assert Untimed(w.(bucket := w.bucket.(pc := pc)), o, plain) by {
      BodyRecordValid(Believed(w), o, w.bucket.pc.attempts, result);
      if plain { PlainAttempt(Believed(w), o, w.bucket.pc.attempts, result); }
      UntimedAttempt(w, o, plain, pc);
    }
    BodySteps(w, o, result);
  }

  lemma UntimedAttempt(w: World, o: Options, plain: bool, pc: Pc)
    requires OptionsAccepted(o) && NeverDurable(o.plan, plain) && Untimed(w, o, plain) && w.bucket.pc.Running?
    requires AttemptDone(Believed(w), o, w.bucket.pc.attempts, pc) && (plain ==> NoRetryAfter(pc.record.attempts))
    ensures Untimed(w.(bucket := w.bucket.(pc := pc)), o, plain)
  {
    RecordsStayUntimed(pc.record, o, plain);
  }

  lemma UntimedEnter(s: State, o: Options, plain: bool, write: WriteOutcome, readable: bool)
    requires OptionsAccepted(o) && NeverDurable(o.plan, plain) && Shape(s, o) && s.timer.None?
    requires plain ==> NoRetryAfter(StoredAttempts(s.activity))
    ensures var t := Enter(s, o, write, readable);
            && t.activity == s.activity && t.timer.None? && t.pc != Stopped(Conflict)
            && (t.pc.Stopped? || t.pc == Running(StoredAttempts(s.activity)))
  {
    ShapeEnter(s, o, write, readable);
    EnterConflictsExactlyOnRejectedTimer(s, o, write, readable);
  }

  lemma UntimedCall(c: Setting, w: World, o: Options, plain: bool, m: Move)
    requires OptionsAccepted(o) && NeverDurable(o.plan, plain) && Kept(w, o) && Untimed(w, o, plain) && m.Call?
    ensures Moved(c, w, o, m) == w || (Untimed(Moved(c, w, o, m), o, plain) && Moved(c, w, o, m).bucket.pc != Stopped(Conflict))
  {
    UntimedEnter(Believed(w), o, plain, m.write, m.readable);
  }

  lemma UntimedClaimed(w: World, o: Options, plain: bool, m: Move)
    requires OptionsAccepted(o) && NeverDurable(o.plan, plain) && Kept(w, o) && Untimed(w, o, plain)
    requires m.Claim? && w.bucket.pc.Claiming?
    ensures Untimed(Claimed(w, o, m), o, plain) && Claimed(w, o, m).bucket.pc != Stopped(Conflict)
  {
    BucketShape(w, o);
    UntimedEnter(w.bucket, o, plain, m.write, m.readable);
  }

  lemma UntimedDo(c: Setting, w: World, o: Options, plain: bool, event: Event)
    requires OptionsAccepted(o) && NeverDurable(o.plan, plain) && Kept(w, o) && Untimed(w, o, plain)
    requires plain ==> PlainFailure(event)
    ensures Untimed(Moved(c, w, o, Do(event)), o, plain)
  {
    match event
    case Body(result) => if w.bucket.pc.Running? { UntimedBody(w, o, plain, result); }
    case Invoke(_, _) =>
    case Crash =>
    case ActivityWrite(_) =>
    case TimerWrite(_, _) =>
    case Tick(_) =>
    case RetireWrite(_) =>
  }

  lemma UntimedMove(c: Setting, w: World, o: Options, plain: bool, m: Move)
    requires OptionsAccepted(o) && NeverDurable(o.plan, plain) && Kept(w, o) && Untimed(w, o, plain)
    requires plain ==> PlainMove(m)
    requires w.bucket.pc != Stopped(Conflict)
    ensures Untimed(Moved(c, w, o, m), o, plain) && Moved(c, w, o, m).bucket.pc != Stopped(Conflict)
  {
    match m
    case Call(_, _, _) => UntimedCall(c, w, o, plain, m);
    case Claim(_, _, _) => if w.bucket.pc.Claiming? { UntimedClaimed(w, o, plain, m); }
    case Do(event) =>
      NoConflictOutsideCalls(c, w, o, event);
      UntimedDo(c, w, o, plain, event);
  }

  lemma {:induction false} NeverDurableNeverConflicts(c: Setting, o: Options, plain: bool, ms: seq<Move>)
    requires OptionsAccepted(o) && NeverDurable(o.plan, plain) && (plain ==> PlainMoves(ms))
    ensures Untimed(Reached(c, o, ms), o, plain) && !Conflicting(c, o, ms)
  {
    if ms != [] {
      var init := ms[..|ms| - 1];
      NeverDurableNeverConflicts(c, o, plain, init);
      KeptRun(c, o, init);
      if plain { assert PlainMove(ms[|ms| - 1]); }
      UntimedMove(c, Reached(c, o, init), o, plain, ms[|ms| - 1]);
    }
  }

  // ---- Main results: replay accepts what earlier calls left -----------------------------------

  /** Failures without Retry-After: no call ever conflicts with what earlier ones left, in any run
      with any crashes, exactly when a policy durable after attempt one is still durable after its
      last retryable attempt; and where the cache may mislead a call, exactly when no wait of the
      policy is durable at all. */
  lemma ReplayAcceptsWithoutRetryAfter(c: Setting, o: Options)
    requires OptionsAccepted(o)
    ensures (forall ms | PlainMoves(ms) :: !Conflicting(c, o, ms)) <==>
            if Protected(c) then SafeWithoutRetryAfter(o.plan) else NoDurableWait(o.plan)
  {
    if Protected(c) && SafeWithoutRetryAfter(o.plan) {
      forall ms | PlainMoves(ms) ensures !Conflicting(c, o, ms) { SafePlainNeverConflicts(c, o, ms); }
    } else if NoDurableWait(o.plan) {
      assert SafeWithoutRetryAfter(o.plan);
      forall ms | PlainMoves(ms) ensures !Conflicting(c, o, ms) { NeverDurableNeverConflicts(c, o, true, ms); }
    } else if !SafeWithoutRetryAfter(o.plan) {
      var es := UnsafePlainConflicts(o);
      var ms := Lifted(c, o, es);
      assert PlainMoves(ms) && Conflicting(c, o, ms);
    } else {
      var ms := UnprotectedConflicts(c, o, 0);
    }
  }

  /** With arbitrary Retry-After values the exact conditions are stricter. */
  lemma ReplayAcceptsAnyFailure(c: Setting, o: Options)
    requires OptionsAccepted(o)
    ensures (forall ms :: !Conflicting(c, o, ms)) <==>
            if Protected(c) then SafeForAnyFailure(o.plan) else o.plan.durableThreshold <= 0 || o.plan.maxAttempts <= 1
  {
    if Protected(c) && SafeForAnyFailure(o.plan) {
      forall ms ensures !Conflicting(c, o, ms) { SafePolicyNeverConflicts(c, o, ms); }
    } else if Protected(c) {
      var es := UnsafePolicyConflicts(o);
      var ms := Lifted(c, o, es);
      assert Conflicting(c, o, ms);
    } else if o.plan.durableThreshold <= 0 || o.plan.maxAttempts <= 1 {
      forall ms ensures !Conflicting(c, o, ms) { NeverDurableNeverConflicts(c, o, false, ms); }
    } else {
      var ms := UnprotectedConflicts(c, o, o.plan.durableThreshold);
    }
  }
}

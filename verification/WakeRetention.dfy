/** Consumed wake timers: `Sleep`, `ArmPoll`, `ResolvePoll`,
    `acknowledgeConsumedWakeTimers` and the terminal write of `Run`.

    The body is any sequential program: which call comes next is an event, so
    every body, every replay and every crash point is a run of this machine.
    `store` is what the bucket holds, `view` what the invocation's run cache
    answers; they part ways only where a write landed without being acknowledged. */
module WakeRetention {
  import opened Basics
  import opened TimerKinds

  type Id = nat

  datatype Timer = Timer(kind: TimerKind, status: TimerStatus, fireAt: int, duration: int)

  // Which bodies and which faults a run may contain.
  datatype Setting = Setting(
    reusesTimerIds: bool,     // a body waits again on an ID it consumed in the same invocation
    ambiguousAcks: bool,      // an acknowledgement may land and still report an error
    durableActivities: bool)  // the body runs activities with durable retry timers

  datatype Pc =
    | Absent
    | Ready
    | Acking(todo: set<Id>, register: Option<Id>, successor: Option<Id>)

  datatype State = State(
    now: int,
    store: map<Id, Timer>,
    terminal: bool,
    view: map<Id, Timer>,
    consumed: set<Id>,
    pc: Pc)

  datatype Event =
    | Tick(elapsed: nat)
    | Begin
    | Crash
    | CallSleep(id: Id, duration: nat, write: WriteOutcome, readable: bool)
    | CallArmPoll(id: Id, interval: nat, write: WriteOutcome, readable: bool)
    | CallResolvePoll(id: Id, interval: nat)
    | Ack(id: Id, write: WriteOutcome)
    | AckDone
    | Finish(write: WriteOutcome)
    | ArmRetry(id: Id, wakeAt: int, interval: nat, write: WriteOutcome, readable: bool)
    | RetireRetry(id: Id, write: WriteOutcome)

  predicate Allowed(c: Setting, s: State, e: Event) {
    match e
    case CallSleep(id, _, _, _) => c.reusesTimerIds || id !in s.consumed
    case CallArmPoll(id, _, _, _) => c.reusesTimerIds || id !in s.consumed
    case Ack(_, write) => c.ambiguousAcks || !write.Ambiguous?
    case ArmRetry(_, _, _, _, _) => c.durableActivities
    case RetireRetry(_, _) => c.durableActivities
    case _ => true
  }

  /** Re-read one timer into the run cache, as `refreshTimer` does. */
  function Refreshed(view: map<Id, Timer>, store: map<Id, Timer>, id: Id, readable: bool): map<Id, Timer> {
    if !readable then view else if id in store then view[id := store[id]] else view - {id}
  }

  /** Write a wake timer. Only an acknowledged write is a successor that retires earlier wakes. */
  function PutWake(s: State, id: Id, timer: Timer, register: Option<Id>, write: WriteOutcome, readable: bool): State {
    var store := if write.Landed() then s.store[id := timer] else s.store;
    if write.Acked? then
      s.(store := store, view := s.view[id := timer], pc := Acking(s.consumed - {id}, register, Some(id)))
    else
      s.(store := store, view := Refreshed(s.view, store, id, readable))
  }

  function DoSleep(s: State, id: Id, duration: nat, write: WriteOutcome, readable: bool): State {
    if id in s.view then
      var t := s.view[id];
      if t.kind != Sleep || t.duration != duration || t.status != Scheduled then s
      else s.(pc := Acking(s.consumed - {id}, if s.now < t.fireAt then None else Some(id), Some(id)))
    else
      PutWake(s, id, Timer(Sleep, Scheduled, s.now + duration, duration),
              if duration > 0 then None else Some(id), write, readable)
  }

  function DoArmPoll(s: State, id: Id, interval: nat, write: WriteOutcome, readable: bool): State {
    if interval == 0 then s
    else if id in s.view && (s.view[id].kind != Poll || s.view[id].duration != interval) then s
    else if id in s.view && s.view[id].status == Scheduled && s.now < s.view[id].fireAt then
      s.(pc := Acking(s.consumed - {id}, None, Some(id)))
    else PutWake(s, id, Timer(Poll, Scheduled, s.now + interval, interval), None, write, readable)
  }

  function DoResolvePoll(s: State, id: Id, interval: nat): State {
    if id in s.view && s.view[id].kind == Poll && s.view[id].duration == interval && s.view[id].status == Scheduled
    then s.(consumed := s.consumed + {id}) else s
  }

  /** One iteration of the acknowledgement loop. */
  function DoAck(s: State, id: Id, write: WriteOutcome): State
    requires s.pc.Acking?
  {
    var rest := s.pc.(todo := s.pc.todo - {id});
    if id !in s.view || s.view[id].status == Fired || s.view[id].status == Canceled then s.(consumed := s.consumed - {id}, pc := rest)
    else if s.view[id].kind == ActivityRetry then s.(pc := rest)
    else
      var fired := s.view[id].(status := Fired);
      s.(store := if write.Landed() then s.store[id := fired] else s.store,
         view := if write.Acked? then s.view[id := fired] else s.view,
         consumed := if write.Acked? then s.consumed - {id} else s.consumed,
         pc := rest)
  }

  /** The durable retry boundary of an activity, which is read and written past the cache. */
  function DoArmRetry(s: State, id: Id, wakeAt: int, interval: nat, write: WriteOutcome, readable: bool): State {
    if id in s.store && s.store[id].kind != ActivityRetry then s
    else if id in s.store && s.store[id].status == Scheduled then
      s.(view := Refreshed(s.view, s.store, id, true), pc := Acking(s.consumed, None, Some(id)))
    else
      var store := if write.Landed() then s.store[id := Timer(ActivityRetry, Scheduled, wakeAt, interval)] else s.store;
      s.(store := store, view := Refreshed(s.view, store, id, write.Acked? || readable),
         pc := if write.Acked? || (write.Ambiguous? && readable) then Acking(s.consumed, None, Some(id)) else s.pc)
  }

  function DoRetireRetry(s: State, id: Id, write: WriteOutcome): State {
    if id in s.store && s.store[id].kind == ActivityRetry && write.Landed() then
      var fired := s.store[id].(status := Fired);
      s.(store := s.store[id := fired], view := if write.Acked? then s.view[id := fired] else s.view)
    else s
  }

  function DoFinish(s: State, write: WriteOutcome): State {
    s.(terminal := s.terminal || write.Landed(), pc := if write.Acked? then Acking(s.consumed, None, None) else Absent)
  }

  function Next(c: Setting, s: State, e: Event): State {
    if !Allowed(c, s, e) then s else
    match e
    case Tick(elapsed) => s.(now := s.now + elapsed)
    case Crash => s.(pc := Absent)
    case Begin =>
      if s.pc.Absent? && !s.terminal then s.(view := s.store, consumed := {}, pc := Ready) else s
    case CallSleep(id, duration, write, readable) =>
      if s.pc.Ready? then DoSleep(s, id, duration, write, readable) else s
    case CallArmPoll(id, interval, write, readable) =>
      if s.pc.Ready? then DoArmPoll(s, id, interval, write, readable) else s
    case CallResolvePoll(id, interval) => if s.pc.Ready? then DoResolvePoll(s, id, interval) else s
    case Ack(id, write) => if s.pc.Acking? && id in s.pc.todo then DoAck(s, id, write) else s
    case AckDone =>
      if s.pc.Acking? && s.pc.todo == {} then
        s.(consumed := s.consumed + (if s.pc.register.Some? then {s.pc.register.value} else {}),
           pc := if s.terminal then Absent else Ready)
      else s
    case Finish(write) => if s.pc.Ready? then DoFinish(s, write) else s
    case ArmRetry(id, wakeAt, interval, write, readable) =>
      if s.pc.Ready? then DoArmRetry(s, id, wakeAt, interval, write, readable) else s
    case RetireRetry(id, write) => if s.pc.Ready? then DoRetireRetry(s, id, write) else s
  }

  function After(c: Setting, es: seq<Event>): State {
    if es == [] then State(0, map[], false, map[], {}, Absent)
    else Next(c, After(c, es[..|es| - 1]), es[|es| - 1])
  }

  // ---- What must never be lost ----------------------------------------------

  predicate IsScheduled(store: map<Id, Timer>, id: Id) { id in store && store[id].status == Scheduled }

  /** Once a wake is durable, some wake stays SCHEDULED until the run is terminal. */
  ghost predicate WakeKept(store: map<Id, Timer>, terminal: bool) {
    store != map[] && !terminal ==> exists id :: IsScheduled(store, id)
  }

  ghost predicate Retained(s: State) { WakeKept(s.store, s.terminal) }

  /** A sleep or poll timer is retired only while a successor or a terminal record is durable. */
  ghost predicate RetiredSafely(s: State, t: State) {
    forall id :: IsScheduled(s.store, id) && s.store[id].kind != ActivityRetry && !IsScheduled(t.store, id) ==>
      t.terminal || exists other :: other != id && IsScheduled(t.store, other)
  }

  predicate Sound(c: Setting) { !(c.reusesTimerIds && c.ambiguousAcks) }

  predicate Stale(view: map<Id, Timer>, store: map<Id, Timer>, id: Id) {
    && id in view && view[id].status == Scheduled && view[id].kind != ActivityRetry
    && !IsScheduled(store, id)
  }

  ghost predicate KindsAgree(view: map<Id, Timer>, store: map<Id, Timer>) {
    forall id :: id in view ==> id in store && store[id].kind == view[id].kind
  }

  // The cache never shows a wake the store has lost, except on an unacknowledged retirement.
  ghost predicate ViewSound(c: Setting, view: map<Id, Timer>, store: map<Id, Timer>, consumed: set<Id>) {
    && KindsAgree(view, store)
    && (forall id :: Stale(view, store, id) ==> id in consumed && c.ambiguousAcks)
  }

  ghost predicate ConsumedSound(store: map<Id, Timer>, consumed: set<Id>) {
    forall id :: id in consumed ==> id in store && store[id].kind != ActivityRetry
  }

  ghost predicate NoRetryTimers(store: map<Id, Timer>) {
    forall id :: id in store ==> store[id].kind != ActivityRetry
  }

  predicate AckSound(s: State) {
    s.pc.Acking? ==>
      && s.pc.todo <= s.consumed
      && (s.pc.successor.None? ==> s.terminal)
      && (s.pc.successor.Some? ==> IsScheduled(s.store, s.pc.successor.value) && s.pc.successor.value !in s.pc.todo)
      && (s.pc.register.Some? ==> s.pc.register == s.pc.successor && s.store[s.pc.register.value].kind != ActivityRetry)
  }

  ghost predicate Inv(c: Setting, s: State) {
    && (!s.pc.Absent? ==> ViewSound(c, s.view, s.store, s.consumed) && ConsumedSound(s.store, s.consumed))
    && AckSound(s)
    && (!c.durableActivities ==> WakeKept(s.store, s.terminal) && NoRetryTimers(s.store))
  }

  predicate SameAt(m: map<Id, Timer>, n: map<Id, Timer>, id: Id) { At(m, id) == At(n, id) }

  /** A change at one timer disturbs the cache's soundness at most there. */
  lemma ViewUpdate(c: Setting, s: State, t: State, id: Id)
    requires ViewSound(c, s.view, s.store, s.consumed) && s.consumed - {id} <= t.consumed
    requires forall x :: x != id ==> SameAt(s.view, t.view, x) && SameAt(s.store, t.store, x)
    requires id in t.view ==> id in t.store && t.store[id].kind == t.view[id].kind
    requires Stale(t.view, t.store, id) ==> id in t.consumed && c.ambiguousAcks
    ensures ViewSound(c, t.view, t.store, t.consumed)
  {
    forall x | x in t.view ensures x in t.store && t.store[x].kind == t.view[x].kind {
      assert x != id ==> SameAt(s.view, t.view, x) && SameAt(s.store, t.store, x);
    }
    forall x | Stale(t.view, t.store, x) ensures x in t.consumed && c.ambiguousAcks {
      if x != id {
        assert SameAt(s.view, t.view, x) && SameAt(s.store, t.store, x);
        assert Stale(s.view, s.store, x);
      }
    }
  }

  lemma InvPutWake(c: Setting, s: State, id: Id, timer: Timer, register: Option<Id>, write: WriteOutcome, readable: bool)
    requires Inv(c, s) && s.pc.Ready? && timer.status == Scheduled && timer.kind != ActivityRetry
    requires register.None? || register == Some(id)
    requires id in s.view ==> s.view[id].kind == timer.kind
    ensures Inv(c, PutWake(s, id, timer, register, write, readable))
    ensures RetiredSafely(s, PutWake(s, id, timer, register, write, readable))
  {
    var t := PutWake(s, id, timer, register, write, readable);
    if write.Landed() { assert IsScheduled(t.store, id); }
    assert forall x :: x != id ==> IsScheduled(s.store, x) == IsScheduled(t.store, x);
    ViewUpdate(c, s, t, id);
  }

  lemma InvDirect(c: Setting, s: State, id: Id, register: Option<Id>)
    requires Sound(c) && Inv(c, s) && s.pc.Ready?
    requires c.reusesTimerIds || id !in s.consumed
    requires id in s.view && s.view[id].status == Scheduled && s.view[id].kind != ActivityRetry
    requires register.None? || register == Some(id)
    ensures var t := s.(pc := Acking(s.consumed - {id}, register, Some(id)));
            Inv(c, t) && RetiredSafely(s, t)
  {
    assert !Stale(s.view, s.store, id);
  }

  lemma InvAck(c: Setting, s: State, id: Id, write: WriteOutcome)
    requires Inv(c, s) && s.pc.Acking? && id in s.pc.todo && (c.ambiguousAcks || !write.Ambiguous?)
    ensures Inv(c, DoAck(s, id, write)) && RetiredSafely(s, DoAck(s, id, write))
  {
    var t := DoAck(s, id, write);
    assert forall x :: x != id ==> IsScheduled(s.store, x) == IsScheduled(t.store, x);
    if s.pc.successor.Some? { assert IsScheduled(t.store, s.pc.successor.value); }
    ViewUpdate(c, s, t, id);
  }

  lemma InvArmRetry(c: Setting, s: State, id: Id, wakeAt: int, interval: nat, write: WriteOutcome, readable: bool)
    requires Inv(c, s) && s.pc.Ready? && c.durableActivities
    ensures Inv(c, DoArmRetry(s, id, wakeAt, interval, write, readable))
    ensures RetiredSafely(s, DoArmRetry(s, id, wakeAt, interval, write, readable))
  {
    var t := DoArmRetry(s, id, wakeAt, interval, write, readable);
    assert forall x :: x != id ==> IsScheduled(s.store, x) == IsScheduled(t.store, x);
    ViewUpdate(c, s, t, id);
  }

  lemma InvRetireRetry(c: Setting, s: State, id: Id, write: WriteOutcome)
    requires Inv(c, s) && s.pc.Ready? && c.durableActivities
    ensures Inv(c, DoRetireRetry(s, id, write)) && RetiredSafely(s, DoRetireRetry(s, id, write))
  {
    var t := DoRetireRetry(s, id, write);
    assert forall x :: x != id ==> IsScheduled(s.store, x) == IsScheduled(t.store, x);
    ViewUpdate(c, s, t, id);
  }

  lemma InvSleep(c: Setting, s: State, id: Id, duration: nat, write: WriteOutcome, readable: bool)
    requires Sound(c) && Inv(c, s) && s.pc.Ready? && (c.reusesTimerIds || id !in s.consumed)
    ensures Inv(c, DoSleep(s, id, duration, write, readable))
    ensures RetiredSafely(s, DoSleep(s, id, duration, write, readable))
  {
    var t := DoSleep(s, id, duration, write, readable);
    if id in s.view {
      var v := s.view[id];
      if v.kind == Sleep && v.duration == duration && v.status == Scheduled {
        var register := if s.now < v.fireAt then None else Some(id);
        assert t == s.(pc := Acking(s.consumed - {id}, register, Some(id)));
        InvDirect(c, s, id, register);
      } else {
        assert t == s;
      }
    } else {
      var timer := Timer(Sleep, Scheduled, s.now + duration, duration);
      var register := if duration > 0 then None else Some(id);
      assert t == PutWake(s, id, timer, register, write, readable);
      InvPutWake(c, s, id, timer, register, write, readable);
    }
  }

  lemma InvArmPoll(c: Setting, s: State, id: Id, interval: nat, write: WriteOutcome, readable: bool)
    requires Sound(c) && Inv(c, s) && s.pc.Ready? && (c.reusesTimerIds || id !in s.consumed)
    ensures Inv(c, DoArmPoll(s, id, interval, write, readable))
    ensures RetiredSafely(s, DoArmPoll(s, id, interval, write, readable))
  {
    var t := DoArmPoll(s, id, interval, write, readable);
    if interval == 0 || (id in s.view && (s.view[id].kind != Poll || s.view[id].duration != interval)) {
      assert t == s;
    } else if id in s.view && s.view[id].status == Scheduled && s.now < s.view[id].fireAt {
      assert t == s.(pc := Acking(s.consumed - {id}, None, Some(id)));
      InvDirect(c, s, id, None);
    } else {
      var timer := Timer(Poll, Scheduled, s.now + interval, interval);
      assert t == PutWake(s, id, timer, None, write, readable);
      InvPutWake(c, s, id, timer, None, write, readable);
    }
  }

  lemma InvStep(c: Setting, s: State, e: Event)
    requires Sound(c) && Inv(c, s)
    ensures Inv(c, Next(c, s, e)) && RetiredSafely(s, Next(c, s, e))
  {
    if Allowed(c, s, e) {
      match e
      case CallSleep(id, duration, write, readable) =>
        if s.pc.Ready? { InvSleep(c, s, id, duration, write, readable); }
      case CallArmPoll(id, interval, write, readable) =>
        if s.pc.Ready? { InvArmPoll(c, s, id, interval, write, readable); }
      case Ack(id, write) => if s.pc.Acking? && id in s.pc.todo { InvAck(c, s, id, write); }
      case ArmRetry(id, wakeAt, interval, write, readable) =>
        if s.pc.Ready? { InvArmRetry(c, s, id, wakeAt, interval, write, readable); }
      case RetireRetry(id, write) => if s.pc.Ready? { InvRetireRetry(c, s, id, write); }
      case _ => InvOther(c, s, e);
    }
  }

  lemma InvOther(c: Setting, s: State, e: Event)
    requires Inv(c, s)
    requires e.Tick? || e.Begin? || e.Crash? || e.CallResolvePoll? || e.AckDone? || e.Finish?
    ensures Inv(c, Next(c, s, e)) && RetiredSafely(s, Next(c, s, e))
  {
  }

  lemma {:induction false} InvRun(c: Setting, es: seq<Event>)
    requires Sound(c)
    ensures Inv(c, After(c, es))
  {
    if es != [] {
      InvRun(c, es[..|es| - 1]);
      InvStep(c, After(c, es[..|es| - 1]), es[|es| - 1]);
    }
  }

  // ---- Runs that lose the wake ------------------------------------------------

  lemma Snoc(c: Setting, es: seq<Event>, e: Event)
    ensures After(c, es + [e]) == Next(c, After(c, es), e)
  {
    assert (es + [e])[..|es + [e]| - 1] == es;
  }

  const ELAPSED := Timer(Sleep, Scheduled, 0, 0)
  const RETIRED := Timer(Sleep, Fired, 0, 0)

  predicate Holds(s: State, store: map<Id, Timer>, view: map<Id, Timer>, consumed: set<Id>) {
    !s.terminal && s.now == 0 && s.store == store && s.view == view && s.consumed == consumed
  }

  lemma OneElapsedSleep(c: Setting) returns (es: seq<Event>)
    ensures Holds(After(c, es), map[1 := ELAPSED], map[1 := ELAPSED], {1}) && After(c, es).pc == Ready
  {
    var call := CallSleep(1, 0, Acked, true);
    Snoc(c, [], Begin);
    Snoc(c, [Begin], call);
    es := [Begin] + [call];
    assert After(c, es).pc.todo == {};
    Snoc(c, es, AckDone);
    es := es + [AckDone];
  }

  /** Two elapsed sleeps in one invocation; `ack` is the fate of the first one's retirement. */
  lemma TwoElapsedSleeps(c: Setting, ack: WriteOutcome) returns (es: seq<Event>)
    requires !ack.Lost? && (c.ambiguousAcks || ack.Acked?)
    ensures var view := map[1 := if ack.Acked? then RETIRED else ELAPSED, 2 := ELAPSED];
            Holds(After(c, es), map[1 := RETIRED, 2 := ELAPSED], view, if ack.Acked? then {2} else {1, 2})
    ensures After(c, es).pc == Ready
  {
    es := OneElapsedSleep(c);
    var call := CallSleep(2, 0, Acked, true);
    Snoc(c, es, call);
    es := es + [call];
    assert After(c, es).pc.todo == {1};
    Snoc(c, es, Ack(1, ack));
    es := es + [Ack(1, ack)];
    assert After(c, es).pc.todo == {};
    Snoc(c, es, AckDone);
    es := es + [AckDone];
  }

  /** Waiting again on the first timer makes its stale cache entry pass for a durable wake, and
      the next acknowledgement retires the only real one. */
  lemma ReuseLosesWake(c: Setting) returns (es: seq<Event>, e: Event)
    requires c.reusesTimerIds && c.ambiguousAcks
    ensures !RetiredSafely(After(c, es), Next(c, After(c, es), e)) && !Retained(After(c, es + [e]))
  {
    es := TwoElapsedSleeps(c, Ambiguous);
    var again := CallSleep(1, 0, Acked, true);
    Snoc(c, es, again);
    es, e := es + [again], Ack(2, Acked);
    assert After(c, es).pc.todo == {2} && IsScheduled(After(c, es).store, 2);
    Snoc(c, es, e);
    assert After(c, es + [e]).store == map[1 := RETIRED, 2 := RETIRED];
    assert 1 in After(c, es + [e]).store;
  }

  /** Over every body, invocation and crash point, durable activities included: no step retires
      a sleep or poll wake without a durable successor or a terminal record, exactly when an
      ambiguous acknowledgement cannot meet a reused timer ID. */
  lemma WakesRetiredOnlyBehindSuccessor(c: Setting)
    ensures (forall es, e :: RetiredSafely(After(c, es), Next(c, After(c, es), e))) <==> Sound(c)
  {
    if Sound(c) {
      forall es, e ensures RetiredSafely(After(c, es), Next(c, After(c, es), e)) {
        InvRun(c, es);
        InvStep(c, After(c, es), e);
      }
    } else {
      var es, e := ReuseLosesWake(c);
    }
  }

  lemma SleepThenDurableActivity(c: Setting) returns (es: seq<Event>)
    requires c.durableActivities
    ensures After(c, es).pc == Ready && !After(c, es).terminal
    ensures After(c, es).store == map[1 := RETIRED, 3 := Timer(ActivityRetry, Scheduled, 0, 1)]
  {
    es := OneElapsedSleep(c);
    var arm := ArmRetry(3, 0, 1, Acked, true);
    Snoc(c, es, arm);
    es := es + [arm];
    assert After(c, es).pc.todo == {1};
    Snoc(c, es, Ack(1, Acked));
    es := es + [Ack(1, Acked)];
    assert After(c, es).pc.todo == {};
    Snoc(c, es, AckDone);
    es := es + [AckDone];
  }

  /** A durable activity retires the consumed sleep, then its own retry timer. */
  lemma DurableActivityLosesWake(c: Setting) returns (es: seq<Event>)
    requires c.durableActivities
    ensures !Retained(After(c, es))
  {
    es := SleepThenDurableActivity(c);
    Snoc(c, es, RetireRetry(3, Acked));
    es := es + [RetireRetry(3, Acked)];
    assert After(c, es).store == map[1 := RETIRED, 3 := Timer(ActivityRetry, Fired, 0, 1)];
    assert 1 in After(c, es).store;
  }

  /** Over every body, every number of invocations and every crash point, the run keeps a
      SCHEDULED wake until it is terminal exactly when durable activities are absent and an
      ambiguous acknowledgement cannot meet a reused timer ID. */
  lemma WakeRetention(c: Setting)
    ensures (forall es :: Retained(After(c, es))) <==> !c.durableActivities && Sound(c)
  {
    if c.durableActivities {
      var es := DurableActivityLosesWake(c);
    } else if !Sound(c) {
      var es, e := ReuseLosesWake(c);
    } else {
      forall es ensures Retained(After(c, es)) { InvRun(c, es); }
    }
  }
}

/** Admission and graceful shutdown of the in-process dispatcher: `DoAsync`,
    `inProcessQueue.Submit`, handler goroutines, `finishSubmission`,
    `waitSubmissions` and `shutdown`, interleaved one shared operation per step.

    The admission lock orders the counter and its channel, but the `closed` flag is set
    outside it: a submitter that has passed its locked check can still be counted after
    the flag is set. What is read and written under the lock is one step. */
module Dispatcher {
  import opened Basics

  type Tid = nat

  datatype Submitter = Away | Called | Locking | Entering | Admitted | Waiting | HasToken | Finishing
  datatype Handler = Running | Returning

  datatype Shutdown =
    | NotStarted
    | Marking
    | Snapshotting(round: nat)
    | WaitingSubmissions(round: nat, channel: nat)
    | ClosingQueue(drained: bool)
    | WaitingHandlers
    | Stopped(drained: bool)

  datatype State = State(
    closed: bool,
    lock: Option<Tid>,              // the submitter holding the admission lock between steps
    activeSubmissions: int,
    submissionsDone: Option<nat>,   // the channel finishSubmission will close
    closedChannels: set<nat>,
    nextChannel: nat,
    tokens: int,                    // taken slots of the semaphore
    group: int,                     // the wait group counter
    queueCloses: nat,
    submitters: map<Tid, Submitter>,
    handlers: map<Tid, Handler>,
    shutdown: Shutdown)

  datatype Event =
    | Call(tid: Tid)
    | Acquire(tid: Tid)
    | Check(tid: Tid)
    | Count(tid: Tid)
    | EnterSubmit(tid: Tid)
    | TakeToken(tid: Tid)
    | GiveUp(tid: Tid)
    | Spawn(tid: Tid, handler: Tid)
    | FinishSubmission(tid: Tid)
    | HandlerReturns(handler: Tid)
    | HandlerDone(handler: Tid)
    | CallShutdown
    | ShutdownStep
    | ShutdownTimeout

  predicate InSubmit(p: Submitter) { p.Admitted? || p.Waiting? || p.HasToken? || p.Finishing? }
  predicate HoldsLock(p: Submitter) { p.Locking? || p.Entering? }
  predicate TokenHeld(p: Submitter) { p == HasToken }
  predicate IsRunning(h: Handler) { h == Running }
  predicate AnyHandler(h: Handler) { true }

  function PcOf(s: State, tid: Tid): Submitter { if tid in s.submitters then s.submitters[tid] else Away }

  function Move(s: State, tid: Tid, p: Submitter): State { s.(submitters := s.submitters[tid := p]) }

  function DoCheck(s: State, tid: Tid): State {
    if s.closed then Move(s, tid, Away).(lock := None) else Move(s, tid, Entering)
  }

  function DoCount(s: State, tid: Tid): State {
    var t := Move(s.(activeSubmissions := s.activeSubmissions + 1, lock := None), tid, Admitted);
    if t.activeSubmissions == 1 then t.(submissionsDone := Some(s.nextChannel), nextChannel := s.nextChannel + 1) else t
  }

  function DoTakeToken(s: State, maxInflight: nat, tid: Tid): State {
    if maxInflight == 0 then Move(s, tid, HasToken)
    else if s.tokens < maxInflight then Move(s.(tokens := s.tokens + 1), tid, HasToken)
    else s
  }

  function DoFinish(s: State, tid: Tid): State {
    var t := Move(s.(activeSubmissions := s.activeSubmissions - 1), tid, Away);
    if t.activeSubmissions == 0 && s.submissionsDone.Some? then
      t.(closedChannels := s.closedChannels + {s.submissionsDone.value}, submissionsDone := None)
    else t
  }

  /** `waitSubmissions` snapshots the channel under the admission lock. */
  function DoSnapshot(s: State, round: nat): State {
    if s.submissionsDone.Some? then s.(shutdown := WaitingSubmissions(round, s.submissionsDone.value))
    else s.(shutdown := AfterSubmissions(round, true))
  }

  function AfterSubmissions(round: nat, drained: bool): Shutdown {
    if round == 0 then ClosingQueue(drained) else if drained then WaitingHandlers else Stopped(false)
  }

  function DoShutdownStep(s: State): State {
    match s.shutdown
    case Marking => s.(closed := true, shutdown := Snapshotting(0))
    case Snapshotting(round) => if s.lock.None? then DoSnapshot(s, round) else s
    case WaitingSubmissions(round, channel) =>
      if channel in s.closedChannels then s.(shutdown := AfterSubmissions(round, true)) else s
    case ClosingQueue(drained) =>
      s.(queueCloses := s.queueCloses + 1, shutdown := if drained then WaitingHandlers else Snapshotting(1))
    case WaitingHandlers => if s.group == 0 then s.(shutdown := Stopped(true)) else s
    case _ => s
  }

  function DoShutdownTimeout(s: State): State {
    match s.shutdown
    case WaitingSubmissions(round, _) => s.(shutdown := AfterSubmissions(round, false))
    case WaitingHandlers => s.(shutdown := Stopped(true))
    case _ => s
  }

  function Next(maxInflight: nat, s: State, e: Event): State {
    match e
    case Call(tid) => if PcOf(s, tid) == Away && !s.closed then Move(s, tid, Called) else s
    case Acquire(tid) =>
      if PcOf(s, tid) == Called && s.lock.None? then Move(s, tid, Locking).(lock := Some(tid)) else s
    case Check(tid) => if PcOf(s, tid) == Locking then DoCheck(s, tid) else s
    case Count(tid) => if PcOf(s, tid) == Entering then DoCount(s, tid) else s
    case EnterSubmit(tid) =>
      if PcOf(s, tid) == Admitted then Move(s, tid, if s.closed then Finishing else Waiting) else s
    case TakeToken(tid) => if PcOf(s, tid) == Waiting then DoTakeToken(s, maxInflight, tid) else s
    case GiveUp(tid) => if PcOf(s, tid) == Waiting && maxInflight > 0 then Move(s, tid, Finishing) else s
    case Spawn(tid, handler) =>
      if PcOf(s, tid) == HasToken && handler !in s.handlers then
        Move(s, tid, Finishing).(group := s.group + 1, handlers := s.handlers[handler := Running])
      else s
    case FinishSubmission(tid) => if PcOf(s, tid) == Finishing && s.lock.None? then DoFinish(s, tid) else s
    case HandlerReturns(h) =>
      if h in s.handlers && s.handlers[h] == Running then
        s.(tokens := if maxInflight > 0 then s.tokens - 1 else s.tokens, handlers := s.handlers[h := Returning])
      else s
    case HandlerDone(h) =>
      if h in s.handlers && s.handlers[h] == Returning then
        s.(group := s.group - 1, handlers := s.handlers - {h})
      else s
    case CallShutdown => if s.shutdown == NotStarted then s.(shutdown := Marking) else s
    case ShutdownStep => DoShutdownStep(s)
    case ShutdownTimeout => DoShutdownTimeout(s)
  }

  function Start(): State { State(false, None, 0, None, {}, 0, 0, 0, 0, map[], map[], NotStarted) }

  function Run(maxInflight: nat, s: State, es: seq<Event>): State {
    if es == [] then s else Next(maxInflight, Run(maxInflight, s, es[..|es| - 1]), es[|es| - 1])
  }

  // ---- Counting ------------------------------------------------------------------

  function Where<V>(m: map<Tid, V>, p: V -> bool): set<Tid> { set t | t in m && p(m[t]) }

  function CountIf<V>(m: map<Tid, V>, p: V -> bool): nat { |Where(m, p)| }

  function Bit(b: bool): nat { if b then 1 else 0 }

  lemma RemoveOne(s: set<Tid>, t: Tid)
    ensures |s - {t}| == |s| - Bit(t in s)
  {
    if t !in s { assert s - {t} == s; }
  }

  lemma CountUpdate<V>(m: map<Tid, V>, t: Tid, v: V, p: V -> bool)
    ensures CountIf(m[t := v], p) == CountIf(m, p) - Bit(t in m && p(m[t])) + Bit(p(v))
  {
    WhereUpdate(m, t, v, p);
    RemoveOne(Where(m, p), t);
    RemoveOne(Where(m[t := v], p), t);
  }

  lemma WhereUpdate<V>(m: map<Tid, V>, t: Tid, v: V, p: V -> bool)
    ensures Where(m[t := v], p) - {t} == Where(m, p) - {t}
    ensures t in Where(m[t := v], p) <==> p(v)
    ensures t in Where(m, p) <==> t in m && p(m[t])
  {
    var n := m[t := v];
    assert n[t] == v && forall k :: k != t ==> (k in n <==> k in m) && (k in m ==> n[k] == m[k]);
  }

  lemma CountRemove<V>(m: map<Tid, V>, t: Tid, p: V -> bool)
    requires t in m
    ensures CountIf(m - {t}, p) == CountIf(m, p) - Bit(p(m[t]))
  {
    assert Where(m - {t}, p) == Where(m, p) - {t};
    RemoveOne(Where(m, p), t);
  }

  lemma CountPositive<V>(m: map<Tid, V>, t: Tid, p: V -> bool)
    requires t in m && p(m[t])
    ensures CountIf(m, p) > 0
  {
    assert t in Where(m, p);
  }

  // ---- Invariant -------------------------------------------------------------------

  predicate AdmissionSound(s: State) {
    && s.activeSubmissions == CountIf(s.submitters, InSubmit)
    && (s.submissionsDone.Some? <==> s.activeSubmissions > 0)
    && (s.submissionsDone.Some? ==> s.submissionsDone.value < s.nextChannel && s.submissionsDone.value !in s.closedChannels)
    && (forall c :: c in s.closedChannels ==> c < s.nextChannel)
  }

  predicate LockSound(s: State) {
    && (forall tid :: tid in s.submitters && HoldsLock(s.submitters[tid]) ==> s.lock == Some(tid))
    && (s.lock.Some? ==> HoldsLock(PcOf(s, s.lock.value)))
  }

  predicate HandlersSound(maxInflight: nat, s: State) {
    && s.tokens == (if maxInflight > 0 then CountIf(s.submitters, TokenHeld) + CountIf(s.handlers, IsRunning) else 0)
    && (maxInflight > 0 ==> s.tokens <= maxInflight)
    && s.group == CountIf(s.handlers, AnyHandler)
  }

  /** Some submitter is past its locked check and not yet counted. */
  predicate PastCheck(s: State) { s.lock.Some? && PcOf(s, s.lock.value) == Entering }

  /** Submissions are over for good: admission is closed, none is in flight and none can be. */
  predicate Drained(s: State) { s.closed && s.activeSubmissions == 0 && !PastCheck(s) }

  /** `waitSubmissions` has looked at the channel at least once. */
  predicate Snapshotted(p: Shutdown) {
    !p.NotStarted? && !p.Marking? && p != Snapshotting(0)
  }

  /** What the shutdown's program counter has established so far. */
  predicate PhaseSound(p: Shutdown, s: State) {
    match p
    case WaitingSubmissions(_, channel) =>
      s.submissionsDone == Some(channel) || (channel in s.closedChannels && s.activeSubmissions == 0)
    case ClosingQueue(drained) => drained ==> s.activeSubmissions == 0
    case WaitingHandlers => s.activeSubmissions == 0
    case Stopped(drained) => drained ==> s.activeSubmissions == 0
    case _ => true
  }

  function ClosesBy(p: Shutdown): nat {
    match p
    case Snapshotting(round) => Bit(round > 0)
    case WaitingSubmissions(round, _) => Bit(round > 0)
    case WaitingHandlers => 1
    case Stopped(_) => 1
    case _ => 0
  }

  predicate ShutdownSound(s: State) {
    && (s.closed <==> !s.shutdown.NotStarted? && !s.shutdown.Marking?)
    && PhaseSound(s.shutdown, s)
    && (Snapshotted(s.shutdown) ==> !PastCheck(s))
    && s.queueCloses == ClosesBy(s.shutdown)
  }

  predicate Inv(maxInflight: nat, s: State) {
    AdmissionSound(s) && LockSound(s) && HandlersSound(maxInflight, s) && ShutdownSound(s)
  }

  /** A submitter's own move, counted three ways. */
  lemma MoveCounts(s: State, tid: Tid, p: Submitter)
    ensures var m := s.submitters[tid := p];
            && CountIf(m, InSubmit) == CountIf(s.submitters, InSubmit) - Bit(InSubmit(PcOf(s, tid))) + Bit(InSubmit(p))
            && CountIf(m, TokenHeld) == CountIf(s.submitters, TokenHeld) - Bit(TokenHeld(PcOf(s, tid))) + Bit(TokenHeld(p))
  {
    CountUpdate(s.submitters, tid, p, InSubmit);
    CountUpdate(s.submitters, tid, p, TokenHeld);
  }

  lemma InvCheck(maxInflight: nat, s: State, tid: Tid)
    requires Inv(maxInflight, s) && PcOf(s, tid) == Locking
    ensures Inv(maxInflight, DoCheck(s, tid))
  {
    MoveCounts(s, tid, if s.closed then Away else Entering);
  }

  lemma InvCount(maxInflight: nat, s: State, tid: Tid)
    requires Inv(maxInflight, s) && PcOf(s, tid) == Entering
    ensures Inv(maxInflight, DoCount(s, tid))
  {
    MoveCounts(s, tid, Admitted);
  }

  lemma InvAcquire(maxInflight: nat, s: State, tid: Tid)
    requires Inv(maxInflight, s) && PcOf(s, tid) == Called && s.lock.None?
    ensures Inv(maxInflight, Move(s, tid, Locking).(lock := Some(tid)))
  {
    MoveCounts(s, tid, Locking);
  }

  lemma InvFinish(maxInflight: nat, s: State, tid: Tid)
    requires Inv(maxInflight, s) && PcOf(s, tid) == Finishing
    ensures Inv(maxInflight, DoFinish(s, tid))
  {
    MoveCounts(s, tid, Away);
    CountPositive(s.submitters, tid, InSubmit);
  }

  lemma InvTakeToken(maxInflight: nat, s: State, tid: Tid)
    requires Inv(maxInflight, s) && PcOf(s, tid) == Waiting
    ensures Inv(maxInflight, DoTakeToken(s, maxInflight, tid))
  {
    MoveCounts(s, tid, HasToken);
  }

  lemma InvMove(maxInflight: nat, s: State, tid: Tid, p: Submitter)
    requires Inv(maxInflight, s) && InSubmit(p) == InSubmit(PcOf(s, tid)) && !TokenHeld(p) && !TokenHeld(PcOf(s, tid))
    requires !HoldsLock(p) && !HoldsLock(PcOf(s, tid))
    ensures Inv(maxInflight, Move(s, tid, p))
  {
    MoveCounts(s, tid, p);
  }

  lemma InvSpawn(maxInflight: nat, s: State, tid: Tid, h: Tid)
    requires Inv(maxInflight, s)
    ensures Inv(maxInflight, Next(maxInflight, s, Spawn(tid, h)))
  {
    MoveCounts(s, tid, Finishing);
    CountUpdate(s.handlers, h, Running, IsRunning);
    CountUpdate(s.handlers, h, Running, AnyHandler);
  }

  lemma InvHandler(maxInflight: nat, s: State, e: Event)
    requires Inv(maxInflight, s) && (e.HandlerReturns? || e.HandlerDone?)
    ensures Inv(maxInflight, Next(maxInflight, s, e))
  {
    if e.handler in s.handlers {
      CountUpdate(s.handlers, e.handler, Returning, IsRunning);
      CountUpdate(s.handlers, e.handler, Returning, AnyHandler);
      CountRemove(s.handlers, e.handler, IsRunning);
      CountRemove(s.handlers, e.handler, AnyHandler);
    }
  }

  lemma InvShutdown(maxInflight: nat, s: State)
    requires Inv(maxInflight, s)
    ensures Inv(maxInflight, DoShutdownStep(s)) && Inv(maxInflight, DoShutdownTimeout(s))
  {
    ShutdownStepSound(s);
    ShutdownFrame(maxInflight, s, DoShutdownStep(s));
    ShutdownFrame(maxInflight, s, DoShutdownTimeout(s));
  }

  /** Shutdown's own steps leave the counters to the goroutines they count. */
  lemma ShutdownFrame(maxInflight: nat, s: State, t: State)
    requires AdmissionSound(s) && LockSound(s) && HandlersSound(maxInflight, s)
    requires t == s.(closed := t.closed, queueCloses := t.queueCloses, shutdown := t.shutdown)
    ensures AdmissionSound(t) && LockSound(t) && HandlersSound(maxInflight, t)
  {
  }

  lemma ShutdownStepSound(s: State)
    requires AdmissionSound(s) && ShutdownSound(s)
    ensures ShutdownSound(DoShutdownStep(s)) && ShutdownSound(DoShutdownTimeout(s))
  {
    match s.shutdown
    case Snapshotting(round) =>
    case WaitingSubmissions(round, channel) =>
    case _ =>
  }

  lemma InvStep(maxInflight: nat, s: State, e: Event)
    requires Inv(maxInflight, s)
    ensures Inv(maxInflight, Next(maxInflight, s, e))
  {
    match e
    case Call(tid) => if PcOf(s, tid) == Away { InvMove(maxInflight, s, tid, Called); }
    case Acquire(tid) => if PcOf(s, tid) == Called && s.lock.None? { InvAcquire(maxInflight, s, tid); }
    case Check(tid) => if PcOf(s, tid) == Locking { InvCheck(maxInflight, s, tid); }
    case Count(tid) => if PcOf(s, tid) == Entering { InvCount(maxInflight, s, tid); }
    case EnterSubmit(tid) =>
      if PcOf(s, tid) == Admitted { InvMove(maxInflight, s, tid, if s.closed then Finishing else Waiting); }
    case TakeToken(tid) => if PcOf(s, tid) == Waiting { InvTakeToken(maxInflight, s, tid); }
    case GiveUp(tid) => if PcOf(s, tid) == Waiting { InvMove(maxInflight, s, tid, Finishing); }
    case FinishSubmission(tid) => if PcOf(s, tid) == Finishing && s.lock.None? { InvFinish(maxInflight, s, tid); }
    case Spawn(tid, h) => InvSpawn(maxInflight, s, tid, h);
    case HandlerReturns(_) => InvHandler(maxInflight, s, e);
    case HandlerDone(_) => InvHandler(maxInflight, s, e);
    case CallShutdown =>
    case ShutdownStep => InvShutdown(maxInflight, s);
    case ShutdownTimeout => InvShutdown(maxInflight, s);
  }

  lemma {:induction false} InvRun(maxInflight: nat, es: seq<Event>)
    ensures Inv(maxInflight, Run(maxInflight, Start(), es))
  {
    if es != [] {
      InvRun(maxInflight, es[..|es| - 1]);
      InvStep(maxInflight, Run(maxInflight, Start(), es[..|es| - 1]), es[|es| - 1]);
    }
  }

  // ---- Main results ------------------------------------------------------------------

  predicate Admitting(s: State, t: State, tid: Tid) { InSubmit(PcOf(t, tid)) && !InSubmit(PcOf(s, tid)) }

  lemma OnlyCountingAdmits(maxInflight: nat, s: State, e: Event, tid: Tid)
    ensures Admitting(s, Next(maxInflight, s, e), tid) ==> e == Count(tid) && PcOf(s, tid) == Entering
  {
    match e
    case Call(_) =>
    case Acquire(_) =>
    case Check(_) =>
    case Count(_) =>
    case EnterSubmit(_) =>
    case TakeToken(_) =>
    case GiveUp(_) =>
    case FinishSubmission(_) =>
    case Spawn(_, _) =>
    case _ => assert Next(maxInflight, s, e).submitters == s.submitters;
  }

  lemma NobodyPassesAClosedCheck(maxInflight: nat, s: State, e: Event)
    requires LockSound(s) && s.closed
    ensures var t := Next(maxInflight, s, e);
            t.closed && (PastCheck(t) ==> PastCheck(s) && t.lock == s.lock)
  {
    match e
    case Call(_) =>
    case Acquire(_) =>
    case Check(_) =>
    case Count(_) =>
    case EnterSubmit(_) =>
    case TakeToken(_) =>
    case GiveUp(_) =>
    case FinishSubmission(_) =>
    case Spawn(_, _) =>
    case _ => assert Next(maxInflight, s, e).submitters == s.submitters;
  }

  /** Once closed, a dispatcher stays closed, nobody passes the check any more, and the only
      submitter a step can still admit is the lock's owner, past its check since before the
      flag was set, while `waitSubmissions` has not yet looked. */
  lemma AdmissionAfterClosing(maxInflight: nat, s: State, e: Event, tid: Tid)
    requires Inv(maxInflight, s) && s.closed
    ensures var t := Next(maxInflight, s, e);
            && t.closed && (PastCheck(t) ==> PastCheck(s) && t.lock == s.lock)
            && (Admitting(s, t, tid) ==> e == Count(tid) && s.lock == Some(tid) && PastCheck(s) && !PastCheck(t)
                                         && !Snapshotted(s.shutdown))
  {
    NobodyPassesAClosedCheck(maxInflight, s, e);
    OnlyCountingAdmits(maxInflight, s, e, tid);
  }

  /** How many submissions a run counts. */
  function Admissions(maxInflight: nat, s: State, es: seq<Event>): nat {
    if es == [] then 0
    else
      var front, last := es[..|es| - 1], es[|es| - 1];
      Admissions(maxInflight, s, front) + Bit(last.Count? && PcOf(Run(maxInflight, s, front), last.tid) == Entering)
  }

  /** After closing at most one submission is ever counted, and none without a submitter that
      was already past its check. */
  lemma {:induction false} AtMostOneAdmissionAfterClosing(maxInflight: nat, s: State, es: seq<Event>)
    requires Inv(maxInflight, s) && s.closed
    ensures var t := Run(maxInflight, s, es);
            && Inv(maxInflight, t) && t.closed
            && Admissions(maxInflight, s, es) + Bit(PastCheck(t)) <= Bit(PastCheck(s)) <= 1
  {
    if es != [] {
      var front, last := es[..|es| - 1], es[|es| - 1];
      AtMostOneAdmissionAfterClosing(maxInflight, s, front);
      var t := Run(maxInflight, s, front);
      InvStep(maxInflight, t, last);
      AdmissionAfterClosing(maxInflight, t, last, if last.Count? then last.tid else 0);
    }
  }

  /** Only a submission in flight adds to the wait group. */
  lemma DrainedStep(maxInflight: nat, s: State, e: Event)
    requires Inv(maxInflight, s) && Drained(s)
    ensures var t := Next(maxInflight, s, e);
            Drained(t) && t.group <= s.group
  {
    AdmissionAfterClosing(maxInflight, s, e, 0);
    InvStep(maxInflight, s, e);
    if e.Spawn? && PcOf(s, e.tid) == HasToken { CountPositive(s.submitters, e.tid, InSubmit); }
    if e.FinishSubmission? && PcOf(s, e.tid) == Finishing { CountPositive(s.submitters, e.tid, InSubmit); }
  }

  /** `waitSubmissions` answered true: the shutdown goes on to wait for handlers. */
  predicate SubmissionsReportedDrained(s: State) {
    || (s.shutdown.ClosingQueue? && s.shutdown.drained)
    || s.shutdown.WaitingHandlers?
    || (s.shutdown.Stopped? && s.shutdown.drained)
  }

  lemma {:induction false} DrainedForever(maxInflight: nat, s: State, es: seq<Event>)
    requires Inv(maxInflight, s) && Drained(s)
    ensures var t := Run(maxInflight, s, es); Inv(maxInflight, t) && Drained(t) && t.group <= s.group
  {
    if es != [] {
      var init := es[..|es| - 1];
      DrainedForever(maxInflight, s, init);
      var t := Run(maxInflight, s, init);
      DrainedStep(maxInflight, t, es[|es| - 1]);
      InvStep(maxInflight, t, es[|es| - 1]);
    }
  }

  /** A closed dispatcher with no active submission stays that way in every continuation exactly
      when nobody is past its check: the flag alone does not end admission. */
  lemma ClosedAndIdleStaysIdleExactly(maxInflight: nat, s: State)
    requires Inv(maxInflight, s) && s.closed && s.activeSubmissions == 0
    ensures (forall es :: Run(maxInflight, s, es).activeSubmissions == 0) <==> !PastCheck(s)
  {
    if PastCheck(s) {
      var es := [Count(s.lock.value)];
      assert es[..0] == [];
      assert Run(maxInflight, s, es) == DoCount(s, s.lock.value);
      assert Run(maxInflight, s, es).activeSubmissions == 1;
    } else {
      forall es ensures Run(maxInflight, s, es).activeSubmissions == 0 { DrainedForever(maxInflight, s, es); }
    }
  }

  /** And the exception is real: some run closes with no active submission and then counts one. */
  lemma SubmissionCountedAfterClosing(maxInflight: nat) returns (es: seq<Event>, e: Event)
    ensures var s := Run(maxInflight, Start(), es);
            s.closed && s.activeSubmissions == 0 && Next(maxInflight, s, e).activeSubmissions == 1
  {
    es := [] + [Call(0)] + [Acquire(0)] + [Check(0)] + [CallShutdown] + [ShutdownStep];
    e := Count(0);
    RunSnoc(maxInflight, [], Call(0));
    RunSnoc(maxInflight, [] + [Call(0)], Acquire(0));
    RunSnoc(maxInflight, [] + [Call(0)] + [Acquire(0)], Check(0));
    RunSnoc(maxInflight, [] + [Call(0)] + [Acquire(0)] + [Check(0)], CallShutdown);
    RunSnoc(maxInflight, [] + [Call(0)] + [Acquire(0)] + [Check(0)] + [CallShutdown], ShutdownStep);
  }

  lemma RunSnoc(maxInflight: nat, es: seq<Event>, e: Event)
    ensures Run(maxInflight, Start(), es + [e]) == Next(maxInflight, Run(maxInflight, Start(), es), e)
  {
    assert (es + [e])[..|es + [e]| - 1] == es;
  }

  /** From the moment `waitSubmissions` reports success, in every continuation, no submission is
      active and the wait group never grows: no `Add` can follow the `Wait`. */
  lemma NoAddAfterWait(maxInflight: nat, es: seq<Event>, more: seq<Event>)
    requires SubmissionsReportedDrained(Run(maxInflight, Start(), es))
    ensures var s := Run(maxInflight, Start(), es);
            var t := Run(maxInflight, s, more);
            t.activeSubmissions == 0 && t.group <= s.group
  {
    InvRun(maxInflight, es);
    DrainedForever(maxInflight, Run(maxInflight, Start(), es), more);
  }

  /** The queue is closed at most once, and exactly once by the time shutdown returns; running
      handlers never exceed the bound, when there is one. */
  lemma QueueClosedOnceAndHandlersBounded(maxInflight: nat, es: seq<Event>)
    ensures var s := Run(maxInflight, Start(), es);
            && s.queueCloses <= 1
            && (s.shutdown.Stopped? ==> s.queueCloses == 1)
            && (maxInflight > 0 ==> CountIf(s.handlers, IsRunning) <= maxInflight)
  {
    InvRun(maxInflight, es);
  }
}

/** Claim-based single flight of one workflow run (`Run` with a claim_owner_id).

    Any number of invocations interleave, one storage operation per step. Claim
    creation is create-if-absent; every write may fail, or land and still report
    an error; an invocation may crash at any step and leak its claim, which then
    only an operator removes. */
module SingleFlight {
  import opened Basics

  type Tid = nat

  datatype Outcome = Completed(result: int) | Failed(failure: int)

  // `shape` is the request/response type pair that replay compares.
  datatype WorkflowRecord = InProgress(shape: int) | Terminal(shape: int, outcome: Outcome)

  datatype Pc =
    | Idle
    | Claiming(attempt: nat)
    | Refused(attempt: nat)
    | ReadingClaim(attempt: nat)
    | Claimed
    | Announcing
    | InBody
    | Releasing(result: Option<Outcome>)

  datatype Invocation = Invocation(shape: int, pc: Pc)

  datatype State = State(
    workflow: Option<WorkflowRecord>,
    claim: bool,
    live: map<Tid, Invocation>,
    commits: seq<Outcome>,     // terminal records that landed, in order
    returned: seq<Outcome>)    // outcomes handed to callers

  datatype Action =
    | Invoke(shape: int)
    | Step(write: WriteOutcome)
    | Finish(outcome: Outcome, write: WriteOutcome)
    | Suspend(write: WriteOutcome)
    | Crash
    | OperatorCleanup

  datatype Event = Event(tid: Tid, action: Action)

  // Does the operator make sure no holder is alive before removing a claim?
  datatype Setting = Setting(verifiedCleanup: bool)

  datatype Inspection = Proceed | Replay(outcome: Outcome) | Conflict

  /** `inspectRecord`. */
  function Inspect(workflow: Option<WorkflowRecord>, shape: int): Inspection {
    match workflow
    case None => Proceed
    case Some(InProgress(stored)) => if stored == shape then Proceed else Conflict
    case Some(Terminal(stored, outcome)) => if stored == shape then Replay(outcome) else Conflict
  }

  predicate Holds(pc: Pc) { pc.Claimed? || pc.Announcing? || pc.InBody? || pc.Releasing? }

  predicate Holder(s: State, tid: Tid) { tid in s.live && Holds(s.live[tid].pc) }

  function Goto(s: State, tid: Tid, shape: int, pc: Pc): State { s.(live := s.live[tid := Invocation(shape, pc)]) }

  function Return(s: State, outcome: Outcome): State { s.(returned := s.returned + [outcome]) }

  /** A read of the workflow record outside the claim. */
  function AfterRead(s: State, tid: Tid, shape: int, next: Pc): State {
    match Inspect(s.workflow, shape)
    case Replay(outcome) => Goto(Return(s, outcome), tid, shape, Idle)
    case Conflict => Goto(s, tid, shape, Idle)
    case Proceed => Goto(s, tid, shape, next)
  }

  function TryCreateClaim(s: State, tid: Tid, shape: int, attempt: nat, write: WriteOutcome): State {
    if s.claim then Goto(s, tid, shape, if write.Acked? then Refused(attempt) else Idle)
    else Goto(s.(claim := write.Landed()), tid, shape, if write.Acked? then Claimed else Idle)
  }

  function ReadUnderClaim(s: State, tid: Tid, shape: int): State {
    match Inspect(s.workflow, shape)
    case Replay(outcome) => Goto(s, tid, shape, Releasing(Some(outcome)))
    case Conflict => Goto(s, tid, shape, Releasing(None))
    case Proceed => Goto(s, tid, shape, if s.workflow.None? then Announcing else InBody)
  }

  function PutInProgress(s: State, tid: Tid, shape: int, write: WriteOutcome, next: Pc): State {
    Goto(s.(workflow := if write.Landed() then Some(InProgress(shape)) else s.workflow), tid, shape, next)
  }

  function PutTerminal(s: State, tid: Tid, shape: int, outcome: Outcome, write: WriteOutcome): State {
    var t := if write.Landed() then s.(workflow := Some(Terminal(shape, outcome)), commits := s.commits + [outcome]) else s;
    Goto(t, tid, shape, Releasing(if write.Acked? then Some(outcome) else None))
  }

  function Release(s: State, tid: Tid, shape: int, result: Option<Outcome>, write: WriteOutcome): State {
    var t := s.(claim := s.claim && !write.Landed());
    Goto(if write.Acked? && result.Some? then Return(t, result.value) else t, tid, shape, Idle)
  }

  function Stepped(s: State, tid: Tid, write: WriteOutcome): State
    requires tid in s.live
  {
    var Invocation(shape, pc) := s.live[tid];
    match pc
    case Idle => s
    case Claiming(attempt) => TryCreateClaim(s, tid, shape, attempt, write)
    case Refused(attempt) => if write.Acked? then AfterRead(s, tid, shape, ReadingClaim(attempt)) else Goto(s, tid, shape, Idle)
    case ReadingClaim(attempt) =>
      Goto(s, tid, shape, if !write.Acked? || s.claim || attempt >= 1 then Idle else Claiming(attempt + 1))
    case Claimed => if write.Acked? then ReadUnderClaim(s, tid, shape) else Goto(s, tid, shape, Releasing(None))
    case Announcing => PutInProgress(s, tid, shape, write, if write.Acked? then InBody else Releasing(None))
    case InBody => s
    case Releasing(result) => Release(s, tid, shape, result, write)
  }

  ghost predicate Abandoned(s: State) { forall tid :: !Holder(s, tid) }

  ghost function Next(c: Setting, s: State, e: Event): State {
    var idle := e.tid !in s.live || s.live[e.tid].pc.Idle?;
    match e.action
    case Invoke(shape) => if idle then AfterRead(s, e.tid, shape, Claiming(0)) else s
    case Step(write) => if e.tid in s.live then Stepped(s, e.tid, write) else s
    case Finish(outcome, write) =>
      if e.tid in s.live && s.live[e.tid].pc.InBody? then PutTerminal(s, e.tid, s.live[e.tid].shape, outcome, write) else s
    case Suspend(write) =>
      if e.tid in s.live && s.live[e.tid].pc.InBody? then
        PutInProgress(s, e.tid, s.live[e.tid].shape, write, Releasing(None))
      else s
    case Crash => s.(live := s.live - {e.tid})
    case OperatorCleanup => if !c.verifiedCleanup || Abandoned(s) then s.(claim := false) else s
  }

  ghost function After(c: Setting, es: seq<Event>): State {
    if es == [] then State(None, false, map[], [], [])
    else Next(c, After(c, es[..|es| - 1]), es[|es| - 1])
  }

  // ---- Invariant -----------------------------------------------------------------

  function Committed(workflow: Option<WorkflowRecord>): seq<Outcome> {
    if workflow.Some? && workflow.value.Terminal? then [workflow.value.outcome] else []
  }

  /** What the claim protects, seen from one invocation. */
  predicate HolderSound(claim: bool, committed: seq<Outcome>, pc: Pc) {
    && (Holds(pc) ==> claim)
    && (pc.Announcing? || pc.InBody? ==> committed == [])
    && (pc.Releasing? && pc.result.Some? ==> committed == [pc.result.value])
  }

  ghost predicate ReturnsSound(s: State) {
    s.returned != [] ==> |s.commits| == 1 && forall i :: 0 <= i < |s.returned| ==> s.returned[i] == s.commits[0]
  }

  ghost predicate Inv(s: State) {
    && (forall a, b :: Holder(s, a) && Holder(s, b) ==> a == b)
    && (forall tid :: tid in s.live ==> HolderSound(s.claim, s.commits, s.live[tid].pc))
    && s.commits == Committed(s.workflow)
    && ReturnsSound(s)
  }

  /** An invocation may take the claim when it is free, and only its holder changes what it protects. */
  predicate Entitled(s: State, t: State, tid: Tid) {
    || Holder(s, tid)
    || !s.claim
    || (t.claim == s.claim && t.commits == s.commits && !Holder(t, tid))
  }

  lemma InvUpdate(s: State, t: State, tid: Tid)
    requires Inv(s) && tid in t.live && t.live - {tid} == s.live - {tid}
    requires Entitled(s, t, tid)
    requires HolderSound(t.claim, t.commits, t.live[tid].pc)
    requires t.commits == Committed(t.workflow) && ReturnsSound(t)
    ensures Inv(t)
  {
    forall o | o in t.live && o != tid
      ensures o in s.live && t.live[o] == s.live[o] && HolderSound(t.claim, t.commits, t.live[o].pc)
    {
      assert o in t.live - {tid};
      assert (s.live - {tid})[o] == s.live[o] && (t.live - {tid})[o] == t.live[o];
      assert HolderSound(s.claim, s.commits, s.live[o].pc);
      if Holder(s, tid) { assert !Holder(s, o); }
    }
    forall a, b | Holder(t, a) && Holder(t, b) ensures a == b {
      assert a != tid ==> Holder(s, a);
      assert b != tid ==> Holder(s, b);
    }
  }

  lemma InvStepped(s: State, tid: Tid, write: WriteOutcome)
    requires Inv(s) && tid in s.live && !s.live[tid].pc.Idle? && !s.live[tid].pc.InBody?
    ensures Inv(Stepped(s, tid, write))
  {
    var t := Stepped(s, tid, write);
    assert HolderSound(s.claim, s.commits, s.live[tid].pc);
    InvUpdate(s, t, tid);
  }

  lemma InvBody(s: State, tid: Tid, outcome: Outcome, write: WriteOutcome)
    requires Inv(s) && tid in s.live && s.live[tid].pc.InBody?
    ensures Inv(PutTerminal(s, tid, s.live[tid].shape, outcome, write))
    ensures Inv(PutInProgress(s, tid, s.live[tid].shape, write, Releasing(None)))
  {
    assert HolderSound(s.claim, s.commits, s.live[tid].pc) && Holder(s, tid);
    InvUpdate(s, PutTerminal(s, tid, s.live[tid].shape, outcome, write), tid);
    InvUpdate(s, PutInProgress(s, tid, s.live[tid].shape, write, Releasing(None)), tid);
  }

  lemma InvOutside(c: Setting, s: State, e: Event)
    requires Inv(s) && c.verifiedCleanup && (e.action.Crash? || e.action.OperatorCleanup?)
    ensures Inv(Next(c, s, e))
  {
    var t := Next(c, s, e);
    forall o | o in t.live ensures o in s.live && t.live[o] == s.live[o] && HolderSound(t.claim, t.commits, t.live[o].pc) {
      assert HolderSound(s.claim, s.commits, s.live[o].pc);
      if e.action.OperatorCleanup? && Abandoned(s) { assert !Holder(s, o); }
    }
    assert forall o :: Holder(t, o) ==> Holder(s, o);
  }

  lemma InvStep(c: Setting, s: State, e: Event)
    requires Inv(s) && c.verifiedCleanup
    ensures Inv(Next(c, s, e))
  {
    match e.action
    case Invoke(shape) =>
      if e.tid !in s.live || s.live[e.tid].pc.Idle? { InvUpdate(s, Next(c, s, e), e.tid); }
    case Step(write) =>
      if e.tid in s.live && !s.live[e.tid].pc.Idle? && !s.live[e.tid].pc.InBody? { InvStepped(s, e.tid, write); }
    case Finish(outcome, write) => if e.tid in s.live && s.live[e.tid].pc.InBody? { InvBody(s, e.tid, outcome, write); }
    case Suspend(write) => if e.tid in s.live && s.live[e.tid].pc.InBody? { InvBody(s, e.tid, Completed(0), write); }
    case _ => InvOutside(c, s, e);
  }

  lemma StepKeepsTerminal(c: Setting, s: State, e: Event)
    requires Inv(s) && Committed(s.workflow) != []
    ensures Next(c, s, e).workflow == s.workflow
  {
    if e.tid in s.live { assert HolderSound(s.claim, s.commits, s.live[e.tid].pc); }
  }

  lemma {:induction false} InvRun(c: Setting, es: seq<Event>)
    requires c.verifiedCleanup
    ensures Inv(After(c, es))
  {
    if es != [] {
      InvRun(c, es[..|es| - 1]);
      InvStep(c, After(c, es[..|es| - 1]), es[|es| - 1]);
    }
  }

  predicate InsideBody(s: State, tid: Tid) { tid in s.live && s.live[tid].pc.InBody? }

  /** At most one invocation is inside the body, at most one terminal record ever lands, and
      every outcome handed to a caller is the stored one. */
  ghost predicate SingleFlightHolds(s: State) {
    && (forall a, b :: InsideBody(s, a) && InsideBody(s, b) ==> a == b)
    && |s.commits| <= 1
    && (forall i :: 0 <= i < |s.returned| ==>
          Committed(s.workflow) == [s.returned[i]])
  }

  lemma InvImpliesSingleFlight(s: State)
    requires Inv(s)
    ensures SingleFlightHolds(s)
  {
    forall a, b | InsideBody(s, a) && InsideBody(s, b) ensures a == b { assert Holder(s, a) && Holder(s, b); }
  }

  /** A terminal record never changes afterwards. */
  lemma {:induction false} TerminalRecordIsFinal(c: Setting, es: seq<Event>, more: seq<Event>)
    requires c.verifiedCleanup && Committed(After(c, es).workflow) != []
    ensures After(c, es + more).workflow == After(c, es).workflow
    decreases |more|
  {
    if more == [] {
      assert es + more == es;
    } else {
      var init := more[..|more| - 1];
      TerminalRecordIsFinal(c, es, init);
      assert (es + more)[..|es + more| - 1] == es + init;
      InvRun(c, es + init);
      StepKeepsTerminal(c, After(c, es + init), more[|more| - 1]);
    }
  }

  lemma Snoc(c: Setting, es: seq<Event>, e: Event)
    ensures After(c, es + [e]) == Next(c, After(c, es), e)
  {
    assert (es + [e])[..|es + [e]| - 1] == es;
  }

  /** Removing the claim of a live holder lets a second invocation into the body. */
  lemma UnverifiedCleanupBreaksSingleFlight(c: Setting) returns (es: seq<Event>)
    requires !c.verifiedCleanup
    ensures !SingleFlightHolds(After(c, es))
  {
    var go := Step(Acked);
    es := [];
    Snoc(c, es, Event(1, Invoke(0))); es := es + [Event(1, Invoke(0))];
    Snoc(c, es, Event(1, go)); es := es + [Event(1, go)];
    Snoc(c, es, Event(1, go)); es := es + [Event(1, go)];
    Snoc(c, es, Event(1, go)); es := es + [Event(1, go)];
    assert After(c, es) == State(Some(InProgress(0)), true, map[1 := Invocation(0, InBody)], [], []);
    Snoc(c, es, Event(0, OperatorCleanup)); es := es + [Event(0, OperatorCleanup)];
    Snoc(c, es, Event(2, Invoke(0))); es := es + [Event(2, Invoke(0))];
    Snoc(c, es, Event(2, go)); es := es + [Event(2, go)];
    Snoc(c, es, Event(2, go)); es := es + [Event(2, go)];
    assert InsideBody(After(c, es), 1) && InsideBody(After(c, es), 2);
  }

  /** Over all interleavings, crashes and ambiguous claim and record writes, single flight
      holds exactly when claims of live holders are never removed from outside. */
  lemma SingleFlightIffVerifiedCleanup(c: Setting)
    ensures (forall es :: SingleFlightHolds(After(c, es))) <==> c.verifiedCleanup
  {
    if c.verifiedCleanup {
      forall es ensures SingleFlightHolds(After(c, es)) { InvRun(c, es); InvImpliesSingleFlight(After(c, es)); }
    } else {
      var es := UnverifiedCleanupBreaksSingleFlight(c);
    }
  }
}

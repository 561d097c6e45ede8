/** `AllActivities`: every branch settles, then one error is chosen so that a branch that is
    still pending keeps the parent workflow pending. Errors are trees: they wrap one cause,
    join several, or mark a business boundary. */
module Fanout {
  import opened Basics

  datatype Sentinel =
    | ClaimRelease
    | WorkflowConflict | ActivityConflict | TimerConflict | CorruptRecord
    | Canceled | DeadlineExceeded | TimerPending | ClaimBusy | EventPending | DependencyPending | Infrastructure

  datatype Error =
    | Mark(sentinel: Sentinel)
    | Plain(message: nat)
    | UserPanic(value: nat)
    | Wrapped(cause: Error)
    | Joined(parts: seq<Error>)
    | InfrastructureError(cause: Error)
    | ActivityError(cause: Error)

  /** `errors.Is`. */
  predicate Is(e: Error, s: Sentinel)
    decreases e
  {
    match e
    case Mark(m) => m == s
    case Plain(_) => false
    case UserPanic(_) => false
    case Wrapped(c) => Is(c, s)
    case Joined(parts) => exists i :: 0 <= i < |parts| && Is(parts[i], s)
    case InfrastructureError(c) => s.Infrastructure? || Is(c, s)
    case ActivityError(c) => Is(c, s)
  }

  /** `errors.As` an activity error. */
  predicate AsActivityError(e: Error)
    decreases e
  {
    match e
    case Mark(_) => false
    case Plain(_) => false
    case UserPanic(_) => false
    case Wrapped(c) => AsActivityError(c)
    case Joined(parts) => exists i :: 0 <= i < |parts| && AsActivityError(parts[i])
    case InfrastructureError(c) => AsActivityError(c)
    case ActivityError(_) => true
  }

  predicate IsConflict(e: Error) {
    Is(e, WorkflowConflict) || Is(e, ActivityConflict) || Is(e, TimerConflict) || Is(e, CorruptRecord)
  }

  predicate IsPending(e: Error) {
    || Is(e, Canceled) || Is(e, DeadlineExceeded) || Is(e, TimerPending) || Is(e, ClaimBusy) || Is(e, EventPending)
    || Is(e, DependencyPending) || Is(e, Infrastructure)
  }

  predicate IsWorkflowContinuation(e: Error) {
    if Is(e, ClaimRelease) then true
    else if AsActivityError(e) || IsConflict(e) then false
    else IsPending(e)
  }

  // ---- Joining -------------------------------------------------------------------------------

  predicate AnyIs(parts: seq<Error>, s: Sentinel) { exists i :: 0 <= i < |parts| && Is(parts[i], s) }

  predicate AnyActivity(parts: seq<Error>) { exists i :: 0 <= i < |parts| && AsActivityError(parts[i]) }

  predicate AnyConflict(parts: seq<Error>) { exists i :: 0 <= i < |parts| && IsConflict(parts[i]) }

  predicate AnyPending(parts: seq<Error>) { exists i :: 0 <= i < |parts| && IsPending(parts[i]) }

  lemma JoinedConflict(parts: seq<Error>)
    ensures IsConflict(Joined(parts)) <==> AnyConflict(parts)
  {
    if AnyConflict(parts) { var i :| 0 <= i < |parts| && IsConflict(parts[i]); }
  }

  lemma JoinedPending(parts: seq<Error>)
    ensures IsPending(Joined(parts)) <==> AnyPending(parts)
  {
    if AnyPending(parts) { var i :| 0 <= i < |parts| && IsPending(parts[i]); }
  }

  /** Exactly when a joined error is a continuation: some part reports a leaked claim, or some
      part is pending and no part is an activity outcome or a conflict. */
  lemma JoinedIsContinuationExactly(parts: seq<Error>)
    ensures IsWorkflowContinuation(Joined(parts)) <==>
            AnyIs(parts, ClaimRelease) || (AnyPending(parts) && !AnyActivity(parts) && !AnyConflict(parts))
  {
    JoinedConflict(parts);
    JoinedPending(parts);
  }

  /** Joining terminal errors never makes a continuation. */
  lemma JoiningTerminalStaysTerminal(parts: seq<Error>)
    requires forall e :: e in parts ==> !IsWorkflowContinuation(e)
    ensures !IsWorkflowContinuation(Joined(parts))
  {
    JoinedIsContinuationExactly(parts);
    forall i | 0 <= i < |parts|
      ensures !Is(parts[i], ClaimRelease) && (IsPending(parts[i]) ==> AsActivityError(parts[i]) || IsConflict(parts[i]))
    {
      assert parts[i] in parts;
    }
  }

  /** Joining everything would lose a pending branch behind a failed one, which is why the
      pending branch is looked for first. */
  lemma JoiningHidesPending(cause: Error)
    requires !Is(cause, ClaimRelease)
    ensures IsWorkflowContinuation(Mark(TimerPending))
    ensures !IsWorkflowContinuation(Joined([ActivityError(cause), Mark(TimerPending)]))
  {
    var parts := [ActivityError(cause), Mark(TimerPending)];
    JoinedIsContinuationExactly(parts);
    assert AsActivityError(parts[0]);
    assert !Is(parts[0], ClaimRelease) && !Is(parts[1], ClaimRelease);
  }

  /** A leaked claim survives any join and any wrapping activity outcome. */
  lemma LeakedClaimIsAlwaysContinuation(parts: seq<Error>, i: nat)
    requires i < |parts| && Is(parts[i], ClaimRelease)
    ensures IsWorkflowContinuation(Joined(parts)) && IsWorkflowContinuation(ActivityError(Joined(parts)))
  {
    assert Is(Joined(parts), ClaimRelease);
  }

  // ---- Choosing the error -----------------------------------------------------------------------

  /** The failures in branch order. */
  function Terminal(failures: seq<Option<Error>>): seq<Error> {
    if failures == [] then []
    else
      var front, last := failures[..|failures| - 1], failures[|failures| - 1];
      Terminal(front) + if last.Some? then [last.value] else []
  }

  lemma {:induction false} TerminalElements(failures: seq<Option<Error>>, e: Error)
    ensures e in Terminal(failures) <==> Some(e) in failures
  {
    if failures != [] {
      var front, last := failures[..|failures| - 1], failures[|failures| - 1];
      TerminalElements(front, e);
      assert failures == front + [last];
    }
  }

  predicate IsContinuing(failure: Option<Error>) { failure.Some? && IsWorkflowContinuation(failure.value) }

  /** What the caller of a fan-out gets: nothing exactly when nothing failed; the first
      continuing failure exactly when there is one; otherwise the one failure, or all of them
      joined in branch order. */
  ghost predicate RightChoice(failures: seq<Option<Error>>, error: Option<Error>) {
    && (error.None? <==> forall i :: 0 <= i < |failures| ==> failures[i].None?)
    && (IsContinuing(error) <==> exists i :: 0 <= i < |failures| && IsContinuing(failures[i]))
    && (IsContinuing(error) ==> exists i :: 0 <= i < |failures| && failures[i] == error
                                            && forall j :: 0 <= j < i ==> !IsContinuing(failures[j]))
    && (error.Some? && !IsContinuing(error) ==>
          var all := Terminal(failures);
          if |all| == 1 then error.value == all[0] else error.value == Joined(all))
  }

  method Choose(failures: array<Option<Error>>) returns (error: Option<Error>)
    ensures RightChoice(failures[..], error)
  {
    for i := 0 to failures.Length
      invariant forall j :: 0 <= j < i ==> !IsContinuing(failures[..][j])
    {
      if failures[i].Some? && IsWorkflowContinuation(failures[i].value) {
        assert failures[..][i] == failures[i];
        return failures[i];
      }
    }
    var terminal: seq<Error> := [];
    for i := 0 to failures.Length
      invariant terminal == Terminal(failures[..i])
    {
      assert failures[..i + 1] == failures[..i] + [failures[i]];
      assert failures[..i + 1][..|failures[..i + 1]| - 1] == failures[..i];
      if failures[i].Some? { terminal := terminal + [failures[i].value]; }
    }
    assert failures[..failures.Length] == failures[..];
    forall e ensures e in terminal <==> Some(e) in failures[..] { TerminalElements(failures[..], e); }
    forall i | 0 <= i < |failures[..]| && failures[..][i].Some? ensures failures[..][i].value in terminal {
      assert failures[..][i] in failures[..];
    }
    if |terminal| == 0 { return None; }
    assert terminal[0] in terminal;
    JoiningTerminalStaysTerminal(terminal);
    error := Some(if |terminal| == 1 then terminal[0] else Joined(terminal));
  }

  function Failures<R>(calls: seq<Option<Result<R, Error>>>): seq<Option<Error>> {
    seq(|calls|, i requires 0 <= i < |calls| =>
      if calls[i].Some? && calls[i].value.Err? then Some(calls[i].value.error) else None)
  }

  function Results<R>(calls: seq<Option<Result<R, Error>>>): seq<Option<R>> {
    seq(|calls|, i requires 0 <= i < |calls| =>
      if calls[i].Some? && calls[i].value.Ok? then Some(calls[i].value.value) else None)
  }

  datatype Outcome<R> = Outcome(results: Option<seq<Option<R>>>, error: Option<Error>)

  /** The branches settle in the order `settling`, each writing only its own position; the
      result does not depend on that order. */
  method AllActivities<R>(calls: seq<Option<Result<R, Error>>>, settling: seq<nat>) returns (r: Outcome<R>)
    requires forall i :: i in settling ==> i < |calls|
    requires forall i :: 0 <= i < |calls| ==> i in settling
    ensures (exists i :: 0 <= i < |calls| && calls[i].None?) ==> r == Outcome(None, Some(Plain(0)))
    ensures (forall i :: 0 <= i < |calls| ==> calls[i].Some?) ==>
              RightChoice(Failures(calls), r.error) && r.results == if r.error.None? then Some(Results(calls)) else None
  {
    for i := 0 to |calls|
      invariant forall j :: 0 <= j < i ==> calls[j].Some?
    {
      if calls[i].None? { return Outcome(None, Some(Plain(0))); }
    }
    if |calls| == 0 { return Outcome(Some([]), None); }
    var results := new Option<R>[|calls|](_ => None);
    var failures := new Option<Error>[|calls|](_ => None);
    for k := 0 to |settling|
      invariant forall i :: 0 <= i < |calls| && i in settling[..k] ==>
                  results[i] == Results(calls)[i] && failures[i] == Failures(calls)[i]
    {
      var i := settling[k];
      assert i in settling;
      results[i] := if calls[i].value.Ok? then Some(calls[i].value.value) else None;
      failures[i] := if calls[i].value.Err? then Some(calls[i].value.error) else None;
      assert settling[..k + 1] == settling[..k] + [i];
    }
    assert settling[..|settling|] == settling;
    assert failures[..] == Failures(calls) && results[..] == Results(calls);
    var error := Choose(failures);
    if error.Some? { return Outcome(None, error); }
    r := Outcome(Some(results[..]), None);
  }
}

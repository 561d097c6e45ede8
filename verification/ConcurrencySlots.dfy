/** The cluster-wide concurrency cap: slot claims `slot:0` .. `slot:limit-1`
    (`acquireConcurrencySlot`, `releaseConcurrencySlot`). */
module ConcurrencySlots {
  import opened Basics

  // ---- One acquisition ---------------------------------------------------------------

  datatype Acquisition = Acquired(slot: nat) | Busy | Failed

  class ClaimStore {
    var claims: set<nat>

    /** Create if absent. */
    method TryCreateClaim(slot: nat, write: WriteOutcome) returns (created: Result<bool, ()>)
      modifies this
      ensures slot in old(claims) ==> claims == old(claims) && created == (if write.Acked? then Ok(false) else Err(()))
      ensures slot !in old(claims) ==> claims == (if write.Landed() then old(claims) + {slot} else old(claims))
      ensures slot !in old(claims) ==> created == if write.Acked? then Ok(true) else Err(())
    {
      if slot in claims { return if write.Acked? then Ok(false) else Err(()); }
      if write.Landed() { claims := claims + {slot}; }
      return if write.Acked? then Ok(true) else Err(());
    }

    /** The slots are tried in order: success takes the lowest free one and nothing else, and
        busy means every slot below the limit is taken. A failed create may leak one slot. */
    method AcquireConcurrencySlot(limit: nat) returns (r: Acquisition)
      modifies this
      ensures r.Acquired? ==> r.slot < limit && r.slot !in old(claims) && claims == old(claims) + {r.slot}
      ensures r.Acquired? ==> forall i :: 0 <= i < r.slot ==> i in old(claims)
      ensures r.Busy? ==> claims == old(claims) && forall i :: 0 <= i < limit ==> i in claims
      ensures r.Failed? ==> exists i :: 0 <= i < limit && claims <= old(claims) + {i}
      ensures old(claims) <= claims
    {
      var i := 0;
      while i < limit
        invariant 0 <= i <= limit && claims == old(claims)
        invariant forall j :: 0 <= j < i ==> j in claims
      {
        var write: WriteOutcome := *;
        var created := TryCreateClaim(i, write);
        if created.Err? {
          assert claims <= old(claims) + {i};
          return Failed;
        }
        if created.value { return Acquired(i); }
        i := i + 1;
      }
      return Busy;
    }

    method ReleaseConcurrencySlot(slot: nat, write: WriteOutcome) returns (ok: bool)
      modifies this
      ensures claims == if write.Landed() then old(claims) - {slot} else old(claims)
      ensures ok == write.Acked?
    {
      if write.Landed() { claims := claims - {slot}; }
      ok := write.Acked?;
    }
  }

  // ---- Many invocations at once --------------------------------------------------------

  type Tid = nat

  datatype Pc = Idle | Trying(slot: nat, limit: nat) | Holding(slot: nat)

  datatype State = State(claims: set<nat>, live: map<Tid, Pc>)

  // Whether operators remove a leaked claim only after they made sure nobody holds it.
  datatype Setting = Setting(verifiedCleanup: bool)

  datatype Action = Begin(limit: nat) | Try(write: WriteOutcome) | Release(write: WriteOutcome) | Crash | Cleanup(slot: nat)

  datatype Event = Event(tid: Tid, action: Action)

  predicate HoldsSlot(s: State, tid: Tid) { tid in s.live && s.live[tid].Holding? }

  ghost predicate SlotHeld(s: State, slot: nat) { exists tid :: HoldsSlot(s, tid) && s.live[tid].slot == slot }

  function TrySlot(s: State, tid: Tid, slot: nat, limit: nat, write: WriteOutcome): State {
    if slot >= limit then s.(live := s.live[tid := Idle])
    else if slot in s.claims then s.(live := s.live[tid := if write.Acked? then Trying(slot + 1, limit) else Idle])
    else State(if write.Landed() then s.claims + {slot} else s.claims,
               s.live[tid := if write.Acked? then Holding(slot) else Idle])
  }

  ghost function Next(c: Setting, s: State, e: Event): State {
    var pc := if e.tid in s.live then s.live[e.tid] else Idle;
    match e.action
    case Begin(limit) => if pc.Idle? then s.(live := s.live[e.tid := Trying(0, limit)]) else s
    case Try(write) => if pc.Trying? then TrySlot(s, e.tid, pc.slot, pc.limit, write) else s
    case Release(write) =>
      if pc.Holding? then State(if write.Landed() then s.claims - {pc.slot} else s.claims, s.live[e.tid := Idle]) else s
    case Crash => s.(live := s.live - {e.tid})
    case Cleanup(slot) => if c.verifiedCleanup && SlotHeld(s, slot) then s else s.(claims := s.claims - {slot})
  }

  ghost function After(c: Setting, es: seq<Event>): State {
    if es == [] then State({}, map[]) else Next(c, After(c, es[..|es| - 1]), es[|es| - 1])
  }

  predicate SlotSound(claims: set<nat>, pc: Pc, cap: nat) {
    && (pc.Holding? ==> pc.slot in claims && pc.slot < cap)
    && (pc.Trying? ==> pc.limit <= cap)
  }

  ghost predicate Inv(s: State, cap: nat) {
    && (forall tid :: tid in s.live ==> SlotSound(s.claims, s.live[tid], cap))
    && (forall a, b :: HoldsSlot(s, a) && HoldsSlot(s, b) && s.live[a].slot == s.live[b].slot ==> a == b)
  }

  predicate WithinCap(e: Event, cap: nat) { e.action.Begin? ==> e.action.limit <= cap }

  ghost predicate RunWithinCap(es: seq<Event>, cap: nat) { forall i :: 0 <= i < |es| ==> WithinCap(es[i], cap) }

  lemma InvStep(c: Setting, s: State, e: Event, cap: nat)
    requires Inv(s, cap) && WithinCap(e, cap) && c.verifiedCleanup
    ensures Inv(Next(c, s, e), cap)
  {
    var t := Next(c, s, e);
    forall tid | tid in t.live ensures SlotSound(t.claims, t.live[tid], cap) {
      if tid in s.live {
        assert SlotSound(s.claims, s.live[tid], cap);
        if tid != e.tid && s.live[tid].Holding? { assert HoldsSlot(s, tid); }
      }
    }
    forall a, b | HoldsSlot(t, a) && HoldsSlot(t, b) && t.live[a].slot == t.live[b].slot ensures a == b {
      assert a != e.tid ==> HoldsSlot(s, a) && SlotSound(s.claims, s.live[a], cap);
      assert b != e.tid ==> HoldsSlot(s, b) && SlotSound(s.claims, s.live[b], cap);
    }
  }

  lemma {:induction false} InvRun(c: Setting, es: seq<Event>, cap: nat)
    requires RunWithinCap(es, cap) && c.verifiedCleanup
    ensures Inv(After(c, es), cap)
  {
    if es != [] {
      var init := es[..|es| - 1];
      assert forall i :: 0 <= i < |init| ==> init[i] == es[i];
      InvRun(c, init, cap);
      InvStep(c, After(c, init), es[|es| - 1], cap);
    }
  }

  /** An injection into 0..n-1 has at most n elements. */
  lemma {:induction false} InjectionBound(held: map<Tid, nat>, n: nat)
    requires forall t :: t in held ==> held[t] < n
    requires forall a, b :: a in held && b in held && held[a] == held[b] ==> a == b
    ensures |held| <= n
  {
    if n > 0 {
      if t :| t in held && held[t] == n - 1 {
        var rest := held - {t};
        assert held.Keys == rest.Keys + {t};
        assert |held.Keys| == |rest.Keys| + 1 && |held| == |held.Keys| && |rest| == |rest.Keys|;
        InjectionBound(rest, n - 1);
      } else {
        InjectionBound(held, n - 1);
      }
    } else {
      assert held.Keys == {};
    }
  }

  ghost function Holders(s: State): set<Tid> { set tid | tid in s.live && HoldsSlot(s, tid) }

  /** Every holder's claim is stored, and no more invocations hold a slot than the cap. */
  ghost predicate CapHolds(s: State, cap: nat) {
    |Holders(s)| <= cap && forall tid :: HoldsSlot(s, tid) ==> s.live[tid].slot in s.claims
  }

  lemma InvImpliesCap(s: State, cap: nat)
    requires Inv(s, cap)
    ensures CapHolds(s, cap)
  {
    var holders := Holders(s);
    var held := map tid | tid in holders :: s.live[tid].slot;
    assert held.Keys == holders;
    forall t | t in held ensures held[t] < cap { assert SlotSound(s.claims, s.live[t], cap); }
    InjectionBound(held, cap);
    assert |held| == |held.Keys|;
  }

  /** Giving a slot back undoes taking it and nothing else: whatever all the others did in
      between, exactly this slot becomes free, every other holder keeps a stored claim, and an
      acquisition that tries the slot next takes it. */
  lemma ReleaseFreesOnlyItsOwn(c: Setting, es: seq<Event>, cap: nat, tid: Tid, other: Tid)
    requires RunWithinCap(es, cap) && c.verifiedCleanup && HoldsSlot(After(c, es), tid)
    ensures var s := After(c, es);
            var t := Next(c, s, Event(tid, Release(Acked)));
            && s.live[tid].slot in s.claims && t.claims == s.claims - {s.live[tid].slot}
            && !HoldsSlot(t, tid) && !SlotHeld(t, s.live[tid].slot)
            && (HoldsSlot(s, other) && other != tid ==> HoldsSlot(t, other) && t.live[other].slot in t.claims)
            && (other in t.live && t.live[other].Trying? && t.live[other].slot == s.live[tid].slot < t.live[other].limit ==>
                  var u := Next(c, t, Event(other, Try(Acked)));
                  u.live[other] == Holding(s.live[tid].slot) && u.claims == s.claims)
  {
    InvRun(c, es, cap);
    var s := After(c, es);
    assert SlotSound(s.claims, s.live[tid], cap);
    if HoldsSlot(s, other) { assert SlotSound(s.claims, s.live[other], cap); }
    var t := Next(c, s, Event(tid, Release(Acked)));
    forall x | HoldsSlot(t, x) ensures t.live[x].slot != s.live[tid].slot { assert HoldsSlot(s, x); }
  }

  // ---- Removing a claim somebody holds ----------------------------------------------------

  lemma Snoc(c: Setting, es: seq<Event>, e: Event)
    ensures After(c, es + [e]) == Next(c, After(c, es), e)
  {
    assert (es + [e])[..|es + [e]| - 1] == es;
  }

  ghost predicate Crowded(s: State, n: nat) {
    s.claims == {} && (forall tid: Tid :: tid in s.live <==> tid < n) && forall tid :: tid in s.live ==> s.live[tid] == Holding(0)
  }

  /** With each removal of the held claim one more invocation gets in. */
  lemma {:induction false} UnverifiedCleanupCrowds(c: Setting, n: nat) returns (es: seq<Event>)
    requires !c.verifiedCleanup
    ensures RunWithinCap(es, 1) && Crowded(After(c, es), n)
  {
    if n == 0 {
      es := [];
    } else {
      var init := UnverifiedCleanupCrowds(c, n - 1);
      var s, tid := After(c, init), n - 1;
      var e0, e1, e2 := Event(tid, Begin(1)), Event(tid, Try(Acked)), Event(tid, Cleanup(0));
      Snoc(c, init, e0);
      Snoc(c, init + [e0], e1);
      Snoc(c, init + [e0] + [e1], e2);
      es := init + [e0] + [e1] + [e2];
      assert After(c, es) == State({}, s.live[tid := Trying(0, 1)][tid := Holding(0)]);
    }
  }

  lemma {:induction false} BelowSize(s: set<Tid>, n: nat)
    requires forall t: Tid :: t in s <==> t < n
    ensures |s| == n
  {
    if n == 0 { assert s == {}; } else { BelowSize(s - {n - 1}, n - 1); }
  }

  /** Over every interleaving with crashes, leaks and ambiguous creates, the holders never exceed
      the largest limit any of them was given and each keeps its claim, exactly when operators
      remove a claim only after its holder is gone (or the limit admits nobody). */
  lemma CapHoldsIffVerifiedCleanup(c: Setting, cap: nat)
    ensures (forall es | RunWithinCap(es, cap) :: CapHolds(After(c, es), cap)) <==> c.verifiedCleanup || cap == 0
  {
    if c.verifiedCleanup {
      forall es | RunWithinCap(es, cap) ensures CapHolds(After(c, es), cap) {
        InvRun(c, es, cap);
        InvImpliesCap(After(c, es), cap);
      }
    } else if cap == 0 {
      forall es | RunWithinCap(es, cap) ensures CapHolds(After(c, es), cap) { NobodyHolds(c, es); }
    } else {
      var es := UnverifiedCleanupCrowds(c, cap + 1);
      var s := After(c, es);
      assert RunWithinCap(es, cap);
      assert forall tid: Tid :: tid in Holders(s) <==> tid < cap + 1;
      BelowSize(Holders(s), cap + 1);
    }
  }

  lemma {:induction false} NobodyHolds(c: Setting, es: seq<Event>)
    requires RunWithinCap(es, 0)
    ensures CapHolds(After(c, es), 0)
    ensures forall tid :: tid in After(c, es).live ==> SlotSound({}, After(c, es).live[tid], 0)
  {
    if es != [] {
      var init := es[..|es| - 1];
      assert forall i :: 0 <= i < |init| ==> init[i] == es[i];
      NobodyHolds(c, init);
    }
    assert Holders(After(c, es)) == {};
  }
}

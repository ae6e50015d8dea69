/** What becomes of recovery attempts and incidents over a run of the protocol. */
module ProtocolReview {
  import opened Ordering
  import opened Domain
  import opened Protocol
  import opened ProtocolLaws
  import opened ProtocolRuns
  import opened ProtocolHistory

  // ----- how attempts and incidents move -----

  /** Decided, or drafted with an outcome. */
  ghost predicate Settled(x: Attempt) {
    x.status == Decided || (x.status == Draft && x.solver.Some?)
  }

  /** What an attempt may have become since: outcomes and verdicts are never revised. */
  ghost predicate AttemptMoves(x: Attempt, y: Attempt) {
    && Kin(x, y) && (Settled(x) ==> y == x)
    && (x.status == PendingReview ==> y == x || (y.verdict.Some? && y == WithVerdict(x, y.verdict.value)))
  }

  ghost predicate IncidentMoves(x: Incident, y: Incident) {
    y.planId == x.planId && y.detectedAt == x.detectedAt && (x.status == Resolved ==> y == x)
  }

  ghost predicate RowsMove(s: State, t: State) {
    && (forall a :: a in s.attempts ==> a in t.attempts && AttemptMoves(s.attempts[a], t.attempts[a]))
    && (forall i :: i in s.incidents ==> i in t.incidents && IncidentMoves(s.incidents[i], t.incidents[i]))
  }

  lemma {:induction false} RowsMoveOn(s: State, t: State, u: State)
    requires RowsMove(s, t) && RowsMove(t, u)
    ensures RowsMove(s, u)
  {
    forall a | a in s.attempts ensures a in u.attempts && AttemptMoves(s.attempts[a], u.attempts[a]) {
      assert AttemptMoves(s.attempts[a], t.attempts[a]) && AttemptMoves(t.attempts[a], u.attempts[a]);
    }
    forall i | i in s.incidents ensures i in u.incidents && IncidentMoves(s.incidents[i], u.incidents[i]) {
      assert IncidentMoves(s.incidents[i], t.incidents[i]) && IncidentMoves(t.incidents[i], u.incidents[i]);
    }
  }

  lemma {:induction false} OneAttemptMoves(s: State, t: State, a: Id, y: Attempt)
    requires t.attempts == s.attempts[a := y] && t.incidents == s.incidents
    requires a in s.attempts ==> AttemptMoves(s.attempts[a], y)
    ensures RowsMove(s, t)
  {
  }

  lemma {:induction false} NoAttemptMoves(s: State, t: State)
    requires t.attempts == s.attempts && t.incidents == s.incidents
    ensures RowsMove(s, t)
  {
  }

  lemma {:induction false} OutcomeMoves(s: State, e: Event)
    requires Inv(s) && Enabled(s, e) && (e.EInfeasible? || e.EError? || e.EInvalid?)
    ensures RowsMove(s, Apply(s, e))
  {
    assert WorkerOk(s, e.attemptId);
    OneAttemptMoves(s, Apply(s, e), e.attemptId, Apply(s, e).attempts[e.attemptId]);
  }

  lemma {:induction false} WorkMoves(s: State, e: Event)
    requires Inv(s) && Enabled(s, e) && OfOneWorker(e)
    ensures RowsMove(s, Apply(s, e))
  {
    if e.EStart? {
      OneAttemptMoves(s, Apply(s, e), e.attemptId, Apply(s, e).attempts[e.attemptId]);
    } else if e.EExpand? {
      OneAttemptMoves(s, Apply(s, e), e.next, Apply(s, e).attempts[e.next]);
    } else if e.EAbandon? {
      NoAttemptMoves(s, Apply(s, e));
    } else if e.EPropose? {
      ProposeMoves(s, e.attemptId, e.planId, e.latest, e.consistent);
    } else {
      OutcomeMoves(s, e);
    }
  }

  lemma {:induction false} OneAttemptAndIncidentMove(s: State, t: State, a: Id, y: Attempt, i: Id, x: Incident)
    requires a in s.attempts && i in s.incidents && t.attempts == s.attempts[a := y] && t.incidents == s.incidents[i := x]
    requires AttemptMoves(s.attempts[a], y) && IncidentMoves(s.incidents[i], x)
    ensures RowsMove(s, t)
  {
  }

  lemma {:induction false} ProposeMoves(s: State, a: Id, p: Id, latest: Option<Id>, consistent: bool)
    requires Inv(s) && CanPropose(s, a, p, latest)
    ensures RowsMove(s, Proposed(s, a, p, latest, consistent))
  {
    assert WorkerOk(s, a);
    var t, i := Proposed(s, a, p, latest, consistent), s.attempts[a].incidentId;
    OneAttemptAndIncidentMove(s, t, a, t.attempts[a], i, t.incidents[i]);
  }

  /** The incident of an attempt under review on the current plan is open. */
  lemma {:induction false} ReviewableIsOpen(s: State, a: Id)
    requires Inv(s) && Reviewable(s, a)
    ensures s.incidents[s.attempts[a].incidentId].status != Resolved
  {
    assert !Past(s, a);
  }

  lemma {:induction false} ClosedMoves(s: State, i: Id, closing: set<Id>, v: Verdict)
    requires AllPending(s, i, closing)
    ensures RowsMove(s, Closed(s, closing, v))
  {
    forall a | a in s.attempts ensures AttemptMoves(s.attempts[a], Closed(s, closing, v).attempts[a]) {
      assert a in closing ==> Pending(s, a, i);
    }
  }

  lemma {:induction false} SiblingsMove(s: State, a: Id, v: Verdict)
    requires a in s.attempts
    ensures RowsMove(s, SiblingsClosed(s, a, v))
  {
    SiblingsArePending(s, s.attempts[a].incidentId, {a});
    ClosedMoves(s, s.attempts[a].incidentId, PendingOf(s, s.attempts[a].incidentId, {a}), v);
  }

  lemma {:induction false} ApproveMoves(s: State, a: Id, who: Id, now: Instant)
    requires Inv(s) && CanApprove(s, a, now)
    ensures RowsMove(s, Approved(s, a, who, now))
  {
    ReviewableIsOpen(s, a);
    var t := ApprovedOne(s, a, Verdict(Approve, who, now));
    OneAttemptAndIncidentMove(s, t, a, t.attempts[a], s.attempts[a].incidentId, t.incidents[s.attempts[a].incidentId]);
    SiblingsMove(t, a, Verdict(Reject, who, now));
    RowsMoveOn(s, t, Approved(s, a, who, now));
  }

  lemma {:induction false} DeclinedMoves(s: State, a: Id, v: Verdict, status: IncidentStatus)
    requires Inv(s) && Reviewable(s, a)
    ensures RowsMove(s, DeclinedOne(s, a, v, status))
  {
    ReviewableIsOpen(s, a);
    var t, i := DeclinedOne(s, a, v, status), s.attempts[a].incidentId;
    OneAttemptAndIncidentMove(s, t, a, t.attempts[a], i, t.incidents[i]);
  }

  lemma {:induction false} ModifyMoves(s: State, a: Id, b: Id, last: Id, who: Id, now: Instant)
    requires Inv(s) && CanModify(s, a, b, last)
    ensures RowsMove(s, Modified(s, a, b, last, who, now))
  {
    var t := DeclinedOne(s, a, Verdict(Modify, who, now), Replanning);
    DeclinedMoves(s, a, Verdict(Modify, who, now), Replanning);
    SiblingsMove(t, a, Verdict(Reject, who, now));
    RowsMoveOn(s, t, ModifiedSoFar(s, a, who, now));
    ReservingMoves(s, ModifiedSoFar(s, a, who, now), b, Wider(s, a, last), s.attempts[a].isOption);
  }

  lemma {:induction false} ReservingMoves(s: State, t: State, b: Id, x: Attempt, forOptions: bool)
    requires RowsMove(s, t) && b !in s.attempts
    ensures RowsMove(s, WithAttempt(t, b, x, forOptions))
  {
    forall a | a in s.attempts ensures AttemptMoves(s.attempts[a], WithAttempt(t, b, x, forOptions).attempts[a]) {
    }
  }

  lemma {:induction false} StartOptionsMoves(s: State, i: Id, a: Id, last: Option<Id>, regenerate: bool, now: Instant)
    requires Inv(s) && CanStartOptions(s, i, a, last, regenerate)
    ensures RowsMove(s, OptionsStarted(s, i, a, last, regenerate, now))
  {
    SiblingsArePending(s, i, {});
    ClosedMoves(s, i, PendingOf(s, i, {}), Verdict(Reject, SYSTEM, now));
    ClearingMoves(s, i, now);
    ReservingMoves(s, OptionsCleared(s, i, now), a, FirstOption(s, i, last), true);
  }

  lemma {:induction false} ClearingMoves(s: State, i: Id, now: Instant)
    requires BaseIsCurrent(s, i) && RowsMove(s, Closed(s, PendingOf(s, i, {}), Verdict(Reject, SYSTEM, now)))
    ensures RowsMove(s, OptionsCleared(s, i, now))
  {
    var t := Closed(s, PendingOf(s, i, {}), Verdict(Reject, SYSTEM, now));
    forall b | b in s.attempts ensures AttemptMoves(s.attempts[b], OptionsCleared(s, i, now).attempts[b]) {
      assert AttemptMoves(s.attempts[b], t.attempts[b]);
    }
  }

  /** Storing options touches the reserved attempt and new ones. */
  lemma {:induction false} OptionsTouch(s: State, a: Id, options: seq<Option_>, latests: seq<Option<Id>>, n: nat)
    requires n <= |options| == |latests| && OptionsAdded(s, a, options, latests, n).Some? && a in s.attempts
    ensures forall b :: b in s.attempts ==> b in OptionsAdded(s, a, options, latests, n).value.attempts
    ensures forall b :: b in s.attempts && b != a ==> OptionsAdded(s, a, options, latests, n).value.attempts[b] == s.attempts[b]
    ensures Kin(s.attempts[a], OptionsAdded(s, a, options, latests, n).value.attempts[a])
    ensures OptionsAdded(s, a, options, latests, n).value.incidents == s.incidents
  {
    if 0 < n { OptionsTouch(s, a, options, latests, n - 1); }
  }

  lemma {:induction false} LastStoredIsNew(s: State, a: Id, options: seq<Option_>, latests: seq<Option<Id>>, n: nat)
    requires n < |options| == |latests| && OptionsAdded(s, a, options, latests, n + 1).Some? && a in s.attempts
    ensures options[n].attemptId == a || options[n].attemptId !in s.attempts
  {
    OptionsTouch(s, a, options, latests, n);
    assert CanAddOption(OptionsAdded(s, a, options, latests, n).value, Before(a, options, n), n == 0, options[n], latests[n]);
  }

  lemma {:induction false} StoredIsNew(s: State, a: Id, options: seq<Option_>, latests: seq<Option<Id>>, n: nat, k: nat)
    requires k < n <= |options| == |latests| && OptionsAdded(s, a, options, latests, n).Some? && a in s.attempts
    ensures options[k].attemptId == a || options[k].attemptId !in s.attempts
  {
    if k < n - 1 {
      StoredIsNew(s, a, options, latests, n - 1, k);
    } else {
      LastStoredIsNew(s, a, options, latests, k);
    }
  }

  /** What is cut off is among what was stored. */
  lemma {:induction false} CutOffIsNew(s: State, a: Id, options: seq<Option_>, latests: seq<Option<Id>>, n: nat, b: Id)
    requires n <= |options| == |latests| && OptionsAdded(s, a, options, latests, n).Some? && a in s.attempts
    requires exists k :: 0 <= k < n && options[k].attemptId == b
    ensures b == a || b !in s.attempts
  {
    var k :| 0 <= k < n && options[k].attemptId == b;
    StoredIsNew(s, a, options, latests, n, k);
  }

  lemma {:induction false} StoredAttemptMoves(s: State, a: Id, options: seq<Option_>, latests: seq<Option<Id>>, beyond: set<Id>, b: Id)
    requires CanStoreOptions(s, a, options, latests, beyond) && options != [] && Unsolved(s, a, s.attempts[a].incidentId) && b in s.attempts
    ensures b in OptionsStored(s, a, options, latests, beyond).attempts
    ensures AttemptMoves(s.attempts[b], OptionsStored(s, a, options, latests, beyond).attempts[b])
  {
    OptionsTouch(s, a, options, latests, |options|);
    if b in beyond { CutOffIsNew(s, a, options, latests, |options|, b); }
  }

  lemma {:induction false} StoreMoves(s: State, a: Id, options: seq<Option_>, latests: seq<Option<Id>>, beyond: set<Id>)
    requires Inv(s) && CanStoreOptions(s, a, options, latests, beyond)
    ensures RowsMove(s, OptionsStored(s, a, options, latests, beyond))
  {
    assert WorkerOk(s, a);
    var t, i := OptionsStored(s, a, options, latests, beyond), s.attempts[a].incidentId;
    if options == [] {
      OneAttemptAndIncidentMove(s, t, a, t.attempts[a], i, t.incidents[i]);
    } else {
      forall b | b in s.attempts ensures b in t.attempts && AttemptMoves(s.attempts[b], t.attempts[b]) {
        StoredAttemptMoves(s, a, options, latests, beyond, b);
      }
    }
  }

  lemma {:induction false} PlanningMovesNoRow(s: State, e: Event)
    requires Enabled(s, e) && (e.EGenerate? || e.EConfirm? || e.EReport? || e.EFacts?)
    ensures RowsMove(s, Apply(s, e))
  {
  }

  lemma {:induction false} ReviewMoves(s: State, e: Event)
    requires Inv(s) && Enabled(s, e) && (e.EApprove? || e.EReject? || e.EModify?)
    ensures RowsMove(s, Apply(s, e))
  {
    match e
    case EApprove(a, who, now) => ApproveMoves(s, a, who, now);
    case EReject(a, who, now) =>
      DeclinedMoves(s, a, Verdict(Reject, who, now),
                    if s.attempts[a].isOption && PendingOf(s, s.attempts[a].incidentId, {a}) != {} then Review else Assessing);
    case EModify(a, b, last, who, now) => ModifyMoves(s, a, b, last, who, now);
  }

  lemma {:induction false} StepMovesRows(s: State, e: Event)
    requires Inv(s)
    ensures RowsMove(s, Step(s, e))
  {
    if Enabled(s, e) {
      if OfOneWorker(e) {
        WorkMoves(s, e);
      } else if e.EGenerate? || e.EConfirm? || e.EReport? || e.EFacts? {
        PlanningMovesNoRow(s, e);
      } else if e.EStartOptions? {
        StartOptionsMoves(s, e.incidentId, e.attemptId, e.last, e.regenerate, e.now);
      } else if e.EStoreOptions? {
        StoreMoves(s, e.attemptId, e.options, e.latests, e.beyond);
      } else {
        ReviewMoves(s, e);
      }
    }
  }

  /** Over any run: no attempt disappears, numbers and predecessors are fixed, outcomes and verdicts
      are final, and so is the end of an incident. */
  lemma {:induction false} RowsOnlyMoveForward(s: State, events: seq<Event>)
    requires Inv(s)
    ensures RowsMove(s, Run(s, events))
    decreases |events|
  {
    if events != [] {
      var n := |events| - 1;
      RowsOnlyMoveForward(s, events[..n]);
      RunKeepsInv(s, events[..n]);
      StepMovesRows(Run(s, events[..n]), events[n]);
      RowsMoveOn(s, Run(s, events[..n]), Run(s, events));
    }
  }

  // ----- approval -----

  /** An incident is approved at most once ever: whoever approves later approves the same attempt. */
  lemma {:induction false} OneApprovalEver(s: State, events: seq<Event>, a: Id, b: Id, i: Id)
    requires Inv(s) && ApprovedIn(s, a, i) && ApprovedIn(Run(s, events), b, i)
    ensures a == b
  {
    RowsOnlyMoveForward(s, events);
    RunKeepsInv(s, events);
    assert AttemptMoves(s.attempts[a], Run(s, events).attempts[a]);
    assert RowOk(s, a);
    assert ApprovedIn(Run(s, events), a, i);
  }

  /** Approving an option leaves nothing of the incident under review or in the works. */
  lemma {:induction false} ApprovalLeavesNothingOpen(s: State, a: Id, who: Id, now: Instant)
    requires Inv(s) && CanApprove(s, a, now)
    ensures Quiet(Approved(s, a, who, now), s.attempts[a].incidentId)
  {
    var v := Verdict(Approve, who, now);
    var t := ApprovedOne(s, a, v);
    ApprovedOneKeepsInv(s, a, v);
    assert Pending(s, a, s.attempts[a].incidentId);
    SiblingsClosedIsQuiet(s, t, a, Verdict(Reject, who, now));
  }

  /** Nothing under review, and only this attempt waits for a worker. */
  ghost predicate OnlyUnderWay(s: State, i: Id, b: Id) {
    forall c :: !Pending(s, c, i) && (Unsolved(s, c, i) <==> c == b)
  }

  /** Modifying an option leaves nothing under review; only the wider attempt is in the works. */
  lemma {:induction false} ModificationLeavesOnlyTheNext(s: State, a: Id, b: Id, last: Id, who: Id, now: Instant)
    requires Inv(s) && CanModify(s, a, b, last)
    ensures OnlyUnderWay(Modified(s, a, b, last, who, now), s.attempts[a].incidentId, b)
  {
    ModifiedSoFarIsQuiet(s, a, who, now);
    OnlyTheReserved(ModifiedSoFar(s, a, who, now), s.attempts[a].incidentId, b, Wider(s, a, last), s.attempts[a].isOption);
  }

  lemma {:induction false} OnlyTheReserved(s: State, i: Id, b: Id, x: Attempt, forOptions: bool)
    requires Quiet(s, i) && x == NewAttempt(i, x.no, x.previous, x.base, x.scope)
    ensures OnlyUnderWay(WithAttempt(s, b, x, forOptions), i, b)
  {
    var t := WithAttempt(s, b, x, forOptions);
    forall c ensures !Pending(t, c, i) && (Unsolved(t, c, i) <==> c == b) {
      assert !Pending(s, c, i) && !Unsolved(s, c, i);
    }
  }

  // ----- what a batch leaves under review -----

  ghost predicate IsOption(options: seq<Option_>, n: nat, b: Id)
    requires n <= |options|
  {
    exists k :: 0 <= k < n && options[k].attemptId == b
  }

  /** The attempts are those of before and those of the options. */
  lemma {:induction false} OptionsAddAttempts(s: State, a: Id, options: seq<Option_>, latests: seq<Option<Id>>, n: nat, b: Id)
    requires n <= |options| == |latests| && OptionsAdded(s, a, options, latests, n).Some? && a in s.attempts
    ensures b in OptionsAdded(s, a, options, latests, n).value.attempts <==> b in s.attempts || IsOption(options, n, b)
    ensures 0 < n ==> IsOption(options, n, a)
  {
    if 0 < n {
      OptionsAddAttempts(s, a, options, latests, n - 1, b);
      assert options[n - 1].attemptId == b ==> IsOption(options, n, b);
      if k :| 0 <= k < n - 1 && options[k].attemptId == b { assert IsOption(options, n, b); }
      if n == 1 { assert options[0].attemptId == a; }
    }
  }

  lemma {:induction false} OptionIdsAreDistinct(s: State, a: Id, options: seq<Option_>, latests: seq<Option<Id>>, n: nat)
    requires n <= |options| == |latests| && OptionsAdded(s, a, options, latests, n).Some? && a in s.attempts
    ensures forall i, j :: 0 <= i < j < n ==> options[i].attemptId != options[j].attemptId
  {
    if 0 < n {
      OptionIdsAreDistinct(s, a, options, latests, n - 1);
      forall i | 0 <= i < n - 1 ensures options[i].attemptId != options[n - 1].attemptId {
        LastIdIsNew(s, a, options, latests, n - 1, i);
      }
    }
  }

  lemma {:induction false} LastIdIsNew(s: State, a: Id, options: seq<Option_>, latests: seq<Option<Id>>, n: nat, i: nat)
    requires i < n < |options| == |latests| && OptionsAdded(s, a, options, latests, n + 1).Some? && a in s.attempts
    ensures options[i].attemptId != options[n].attemptId
  {
    OptionsAddAttempts(s, a, options, latests, n, options[i].attemptId);
    assert CanAddOption(OptionsAdded(s, a, options, latests, n).value, Before(a, options, n), n == 0, options[n], latests[n]);
  }

  /** After a batch the attempts under review are its options short of the cut-off. */
  lemma {:induction false} StoredUnderReview(s: State, a: Id, options: seq<Option_>, latests: seq<Option<Id>>, beyond: set<Id>, b: Id)
    requires Inv(s) && CanStoreOptions(s, a, options, latests, beyond) && options != []
    ensures Pending(OptionsStored(s, a, options, latests, beyond), b, s.attempts[a].incidentId) <==>
            IsOption(options, |options|, b) && b !in beyond
  {
    assert WorkerOk(s, a);
    assert AtTheEnd(s, a, s.attempts[a].incidentId);
    assert !Pending(s, b, s.attempts[a].incidentId);
    OptionsAreUnderReview(s, a, options, latests, |options|);
    OptionsAddAttempts(s, a, options, latests, |options|, b);
    OptionsTouch(s, a, options, latests, |options|);
    StoredStatus(s, a, options, latests, beyond, b);
  }

  lemma {:induction false} StoredStatus(s: State, a: Id, options: seq<Option_>, latests: seq<Option<Id>>, beyond: set<Id>, b: Id)
    requires CanStoreOptions(s, a, options, latests, beyond) && options != []
    ensures var t := OptionsAdded(s, a, options, latests, |options|).value;
            Pending(OptionsStored(s, a, options, latests, beyond), b, s.attempts[a].incidentId) <==>
            Pending(t, b, s.attempts[a].incidentId) && b !in beyond
  {
  }
}

/** The invariant of the protocol over every run, and what follows from it. */
module ProtocolRuns {
  import opened Ordering
  import opened Domain
  import opened Protocol
  import opened ProtocolLaws

  // ----- normal planning -----

  lemma {:induction false} DraftCancelKeepsOk(x: map<Id, Plan>, y: map<Id, Plan>, latest: Option<Id>)
    requires PlansOk(x) && (latest.Some? ==> latest.value in x)
    requires y == x || (latest.Some? && x[latest.value].status == PlanDraft && y == x[latest.value := x[latest.value].(status := PlanCancelled)])
    ensures PlansOk(y) && PlansMove(x, y) && SameCandidates(x, y)
  {
    forall q, r | SameDate(y, q, r) && y[q].status == PlanCurrent && y[r].status == PlanCurrent ensures q == r {
      assert SameDate(x, q, r) && Compatible(x, q, r);
    }
    MovesKeepPlansOk(x, y);
  }

  lemma {:induction false} GeneratedFollows(s: State, plans: map<Id, Plan>, date: Date, latest: Option<Id>, plan: Plan)
    requires IsLatest(s, date, latest) && plans.Keys == s.plans.Keys && PlansMove(s.plans, plans) && plan.date == date
    requires plan.version == (if latest.Some? then s.plans[latest.value].version + 1 else 1) && plan.parent == latest
    requires latest.Some? ==> plan.group == s.plans[latest.value].group
    ensures Follows(plans, latest, plan)
  {
    forall q | q in plans ensures SamePlan(s.plans[q], plans[q]) {
      assert PlanMoves(s.plans[q], plans[q]);
    }
  }

  lemma {:induction false} GenerateKeepsInv(s: State, date: Date, latest: Option<Id>, p: Id, group: Id, draft: bool, now: Instant)
    requires Inv(s) && CanGenerate(s, date, latest, p)
    ensures Inv(Generated(s, date, latest, p, group, draft, now))
  {
    var t := Generated(s, date, latest, p, group, draft, now);
    var plans := if draft && latest.Some? && s.plans[latest.value].status == PlanDraft
                 then s.plans[latest.value := s.plans[latest.value].(status := PlanCancelled)] else s.plans;
    DraftCancelKeepsOk(s.plans, plans, latest);
    GeneratedFollows(s, plans, date, latest, t.plans[p]);
    AddPlanKeepsOk(plans, p, t.plans[p], latest);
    GeneratedMoves(s.plans, plans, t.plans, p);
    PlanStepKeepsInv(s, t.plans);
  }

  lemma {:induction false} GeneratedMoves(x: map<Id, Plan>, y: map<Id, Plan>, z: map<Id, Plan>, p: Id)
    requires PlansMove(x, y) && y.Keys == x.Keys && SameCandidates(x, y) && p !in x && p in z && z == y[p := z[p]] && z[p].status != PlanCandidate
    ensures PlansMove(x, z) && SameCandidates(x, z)
  {
  }

  lemma {:induction false} ConfirmKeepsInv(s: State, p: Id, now: Instant)
    requires Inv(s) && CanConfirm(s, p)
    ensures Inv(Confirmed(s, p, now))
  {
    var t := Confirmed(s, p, now);
    forall q, r | SameDate(t.plans, q, r) && t.plans[q].status == PlanCurrent && t.plans[r].status == PlanCurrent ensures q == r {
      assert q != p ==> s.plans[q].status == PlanCurrent;
      assert r != p ==> s.plans[r].status == PlanCurrent;
      assert SameDate(s.plans, q, r) && Compatible(s.plans, q, r);
    }
    MovesKeepPlansOk(s.plans, t.plans);
    PlanStepKeepsInv(s, t.plans);
  }

  // ----- attempts of one worker -----

  /** A number that is free above a taken one is above them all. */
  lemma {:induction false} FreeNumberIsBeyond(s: State, i: Id, no: nat, b: Id)
    requires Rows(s) && NumberFree(s, i, no) && 0 < no && Of(s, b, i)
    ensures s.attempts[b].no < no
    decreases s.attempts[b].no
  {
    assert RowOk(s, b);
    if no < s.attempts[b].no {
      var c :| HasNumber(s, c, i, s.attempts[b].no - 1);
      FreeNumberIsBeyond(s, i, no, c);
    }
  }

  lemma {:induction false} StartKeepsInv(s: State, i: Id, a: Id)
    requires Inv(s) && CanStart(s, i, a)
    ensures Inv(Started(s, i, a))
  {
    NewAttemptKeepsInv(s, Started(s, i, a), a, NewAttempt(i, 1, None, s.incidents[i].planId, AffectedRoute), false);
  }

  lemma {:induction false} InfeasibleKeepsInv(s: State, a: Id)
    requires Inv(s) && IsSolving(s, a, false)
    ensures Inv(RecordedInfeasible(s, a))
  {
    assert WorkerOk(s, a) && RowOk(s, a);
    RecordKeepsInv(s, a, s.attempts[a].(solver := Some(OutcomeInfeasible)), RecordedInfeasible(s, a).workers);
  }

  lemma {:induction false} ErrorKeepsInv(s: State, a: Id)
    requires Inv(s) && a in s.attempts && a in s.workers && s.workers[a].Solving?
    ensures Inv(RecordedError(s, a))
  {
    assert WorkerOk(s, a) && RowOk(s, a);
    RecordKeepsInv(s, a, s.attempts[a].(solver := Some(OutcomeError)), s.workers - {a});
  }

  lemma {:induction false} InvalidKeepsInv(s: State, a: Id)
    requires Inv(s) && IsSolving(s, a, false)
    ensures Inv(RecordedInvalid(s, a))
  {
    assert WorkerOk(s, a) && RowOk(s, a);
    RecordKeepsInv(s, a, s.attempts[a].(solver := Some(OutcomeFeasible), validation := Some(Invalid)), s.workers - {a});
  }

  lemma {:induction false} SameAttemptsSameViews(s: State, t: State, i: Id, no: nat)
    requires s.attempts == t.attempts && Quiet(s, i) && Beyond(s, i, no)
    ensures Quiet(t, i) && Beyond(t, i, no)
  {
    forall c ensures !Pending(t, c, i) && !Unsolved(t, c, i) {
      assert !Pending(s, c, i) && !Unsolved(s, c, i);
    }
    forall c | Of(t, c, i) ensures t.attempts[c].no < no {
      assert Of(s, c, i);
    }
  }

  lemma {:induction false} ExpandKeepsInv(s: State, a: Id, b: Id)
    requires Inv(s) && CanExpand(s, a, b)
    ensures Inv(Expanded(s, a, b))
  {
    assert WorkerOk(s, a) && RowOk(s, a);
    var x := s.attempts[a];
    var i := x.incidentId;
    forall c | Of(s, c, i) ensures s.attempts[c].no < x.no + 1 {
      FreeNumberIsBeyond(s, i, x.no + 1, c);
    }
    assert IsLastAttempt(s, a, i) && Quiet(s, i);
    var gone := s.(workers := s.workers - {a});
    WorkerLeaves(s, a);
    assert HasNumber(gone, a, i, x.no);
    SameAttemptsSameViews(s, gone, i, x.no + 1);
    assert Abandoned(s, a) == gone;
    NewAttemptKeepsInv(gone, Expanded(s, a, b), b, NewAttempt(i, x.no + 1, Some(a), x.base, NextScope(x.scope).value), false);
  }

  /** The candidate numbered after the latest plan of its date. */
  lemma {:induction false} CandidateFollows(s: State, base: Id, p: Id, latest: Option<Id>, consistent: bool)
    requires PlansOk(s.plans) && base in s.plans && p !in s.plans && IsLatest(s, s.plans[base].date, latest) && latest.Some?
    ensures Child(s.plans, base, CandidatePlan(s, base, latest, consistent)) && PlansOk(s.plans[p := CandidatePlan(s, base, latest, consistent)])
  {
    assert SameDate(s.plans, base, latest.value) && Compatible(s.plans, base, latest.value);
    AddPlanKeepsOk(s.plans, p, CandidatePlan(s, base, latest, consistent), latest);
  }

  lemma {:induction false} ProposeKeepsInv(s: State, a: Id, p: Id, latest: Option<Id>, consistent: bool)
    requires Inv(s) && CanPropose(s, a, p, latest)
    ensures Inv(Proposed(s, a, p, latest, consistent))
  {
    assert WorkerOk(s, a) && RowOk(s, a);
    var x := s.attempts[a];
    var gone := s.(workers := s.workers - {a});
    WorkerLeaves(s, a);
    CandidateFollows(s, x.base, p, latest, consistent);
    var y := Offered(x, p, false);
    var offered := gone.(plans := s.plans[p := CandidatePlan(s, x.base, latest, consistent)], attempts := s.attempts[a := y]);
    assert Unsolved(gone, a, y.incidentId);
    OfferKeepsInv(gone, offered, a, p, CandidatePlan(s, x.base, latest, consistent), y);
    IncidentStepKeepsInv(offered, x.incidentId, Review);
  }

  // ----- decisions -----

  lemma {:induction false} ClosedIsRetired(s: State, i: Id, closing: set<Id>, v: Verdict)
    requires Rows(s) && AllPending(s, i, closing) && v.decision != Approve
    ensures Retired(s, Closed(s, closing, v), i, closing)
  {
    var t := Closed(s, closing, v);
    forall a | a in closing ensures RetiredRow(s.attempts[a], t.attempts[a]) {
      assert Pending(s, a, i) && RowOk(s, a);
    }
  }

  lemma {:induction false} ClosedKeepsInv(s: State, i: Id, closing: set<Id>, v: Verdict)
    requires Inv(s) && AllPending(s, i, closing) && v.decision != Approve
    ensures Inv(Closed(s, closing, v))
  {
    ClosedIsRetired(s, i, closing, v);
    RetireKeepsInv(s, Closed(s, closing, v), i, closing);
  }

  /** Closing one attempt is closing the set of it. */
  lemma {:induction false} CloseOne(s: State, a: Id, v: Verdict)
    requires Paired(s) && a in s.attempts && Pending(s, a, s.attempts[a].incidentId) && s.attempts[a].candidate.Some?
    requires s.attempts[a].candidate.value in s.plans
    ensures var c := s.attempts[a].candidate.value;
            && Closed(s, {a}, v).plans == s.plans[c := s.plans[c].(status := PlanCancelled)]
            && Closed(s, {a}, v).attempts == s.attempts[a := WithVerdict(s.attempts[a], v)]
  {
    var c := s.attempts[a].candidate.value;
    assert s.attempts[a].candidate == Some(c);
    assert CancelledPlans(s.plans, s.attempts, {a}) == s.plans[c := s.plans[c].(status := PlanCancelled)];
  }

  lemma {:induction false} DeclinedOneKeepsInv(s: State, a: Id, v: Verdict, status: IncidentStatus)
    requires Inv(s) && Reviewable(s, a) && v.decision != Approve && status != Resolved
    ensures Inv(DeclinedOne(s, a, v, status))
  {
    var x := s.attempts[a];
    assert Pending(s, a, x.incidentId);
    CloseOne(s, a, v);
    ClosedKeepsInv(s, x.incidentId, {a}, v);
    assert !Past(s, a);
    IncidentStepKeepsInv(Closed(s, {a}, v), x.incidentId, status);
  }

  lemma {:induction false} RejectKeepsInv(s: State, a: Id, who: Id, now: Instant)
    requires Inv(s) && Reviewable(s, a)
    ensures Inv(Rejected(s, a, who, now))
  {
    var x := s.attempts[a];
    DeclinedOneKeepsInv(s, a, Verdict(Reject, who, now),
                        if x.isOption && PendingOf(s, x.incidentId, {a}) != {} then Review else Assessing);
  }

  lemma {:induction false} SiblingsArePending(s: State, i: Id, except: set<Id>)
    ensures AllPending(s, i, PendingOf(s, i, except))
    ensures forall b :: Pending(s, b, i) ==> b in PendingOf(s, i, except) || b in except
  {
  }

  lemma {:induction false} SiblingsClosedKeepsInv(s: State, a: Id, v: Verdict)
    requires Inv(s) && a in s.attempts && v.decision != Approve
    ensures Inv(SiblingsClosed(s, a, v))
  {
    var i := s.attempts[a].incidentId;
    SiblingsArePending(s, i, {a});
    if s.attempts[a].isOption { ClosedKeepsInv(s, i, PendingOf(s, i, {a}), v); }
  }

  lemma {:induction false} ApproveKeepsInv(s: State, a: Id, who: Id, now: Instant)
    requires Inv(s) && CanApprove(s, a, now)
    ensures Inv(Approved(s, a, who, now))
  {
    var v := Verdict(Approve, who, now);
    assert RowOk(s, a);
    ApprovalKeepsInv(s, ApprovedOne(s, a, v), a, v);
    SiblingsClosedKeepsInv(ApprovedOne(s, a, v), a, Verdict(Reject, who, now));
  }

  /** After closing all that is under review nothing of the incident is pending. */
  lemma {:induction false} ClosingLeavesQuiet(s: State, i: Id, except: set<Id>, v: Verdict)
    requires Rows(s) && v.decision != Approve
    requires forall b :: !Unsolved(s, b, i) && (b in except ==> !Pending(s, b, i))
    ensures Quiet(Closed(s, PendingOf(s, i, except), v), i)
  {
    var closing := PendingOf(s, i, except);
    SiblingsArePending(s, i, except);
    ClosedIsRetired(s, i, closing, v);
    RetiredViews(s, Closed(s, closing, v), i, closing);
  }

  /** While an attempt is under review no worker holds one of the same incident. */
  lemma {:induction false} NothingUnsolvedBeside(s: State, a: Id, i: Id)
    requires Orderly(s) && Pending(s, a, i)
    ensures forall b :: !Unsolved(s, b, i)
  {
    assert forall b :: Unsolved(s, b, i) ==> AtTheEnd(s, b, i);
  }

  /** Once an attempt is turned down and its siblings are closed, nothing is under way. */
  lemma {:induction false} SiblingsClosedIsQuiet(s: State, t: State, a: Id, v: Verdict)
    requires Inv(s) && Rows(t) && v.decision != Approve && a in s.attempts && Pending(s, a, s.attempts[a].incidentId)
    requires a in t.attempts && t.attempts == s.attempts[a := t.attempts[a]] && t.attempts[a].status == Decided
    requires Kin(s.attempts[a], t.attempts[a]) && t.attempts[a].isOption == s.attempts[a].isOption
    ensures Quiet(SiblingsClosed(t, a, v), s.attempts[a].incidentId)
  {
    var i := s.attempts[a].incidentId;
    NothingUnsolvedBeside(s, a, i);
    OthersAreTheSame(s, t, a, t.attempts[a]);
    forall b ensures !Unsolved(t, b, i) && (b == a ==> !Pending(t, b, i)) {
      assert b != a ==> !Unsolved(s, b, i);
    }
    if s.attempts[a].isOption {
      ClosingLeavesQuiet(t, i, {a}, v);
    } else {
      forall b ensures !Pending(t, b, i) {
        OnlyOptionsHaveSiblings(s, a, b, i);
      }
    }
  }

  lemma {:induction false} OnlyOptionsHaveSiblings(s: State, a: Id, b: Id, i: Id)
    requires Orderly(s) && Pending(s, a, i) && !s.attempts[a].isOption
    ensures Pending(s, b, i) ==> b == a
  {
  }

  lemma {:induction false} ModifiedSoFarIsQuiet(s: State, a: Id, who: Id, now: Instant)
    requires Inv(s) && Reviewable(s, a)
    ensures Inv(ModifiedSoFar(s, a, who, now)) && Quiet(ModifiedSoFar(s, a, who, now), s.attempts[a].incidentId)
  {
    var v := Verdict(Modify, who, now);
    var t := DeclinedOne(s, a, v, Replanning);
    DeclinedOneKeepsInv(s, a, v, Replanning);
    SiblingsClosedKeepsInv(t, a, Verdict(Reject, who, now));
    SiblingsClosedIsQuiet(s, t, a, Verdict(Reject, who, now));
  }

  /** Turned down and closed attempts keep their numbers. */
  lemma {:induction false} ModifiedSoFarKeepsNumbers(s: State, a: Id, who: Id, now: Instant)
    requires Reviewable(s, a)
    ensures SameNumbering(s, ModifiedSoFar(s, a, who, now))
    ensures var t, i := ModifiedSoFar(s, a, who, now), s.attempts[a].incidentId;
            i in t.incidents && t.incidents[i].planId == s.incidents[i].planId && t.incidents[i].status != Resolved
  {
  }

  ghost predicate SameNumbering(s: State, t: State) {
    t.attempts.Keys == s.attempts.Keys && forall b :: b in s.attempts ==> Kin(s.attempts[b], t.attempts[b])
  }

  /** The attempt after the last one, which follows attempt a. */
  lemma {:induction false} NextAttemptFits(s: State, t: State, i: Id, a: Id, last: Id, x: Attempt)
    requires Rows(s) && SameNumbering(s, t) && IsLastAttempt(s, last, i) && Of(s, a, i) && Quiet(t, i)
    requires i in s.incidents && i in t.incidents && t.incidents[i].planId == s.incidents[i].planId && t.incidents[i].status != Resolved
    requires x == NewAttempt(i, s.attempts[last].no + 1, Some(a), s.incidents[i].planId, x.scope)
    ensures Fits(t, x)
  {
    assert RowOk(s, a) && RowOk(s, last);
    assert Kin(s.attempts[last], t.attempts[last]) && Kin(s.attempts[a], t.attempts[a]);
    forall b | Of(t, b, i) ensures t.attempts[b].no < x.no {
      assert Kin(s.attempts[b], t.attempts[b]);
    }
    assert HasNumber(t, last, i, x.no - 1);
  }

  /** The attempt that `modify` reserves. */
  function Wider(s: State, a: Id, last: Id): Attempt
    requires a in s.attempts && last in s.attempts && NextScope(s.attempts[a].scope).Some?
  {
    NewAttempt(s.attempts[a].incidentId, s.attempts[last].no + 1, Some(a), s.attempts[a].base, NextScope(s.attempts[a].scope).value)
  }

  lemma {:induction false} WiderFits(s: State, a: Id, b: Id, last: Id, who: Id, now: Instant)
    requires Rows(s) && CanModify(s, a, b, last) && Quiet(ModifiedSoFar(s, a, who, now), s.attempts[a].incidentId)
    ensures Fits(ModifiedSoFar(s, a, who, now), Wider(s, a, last))
    ensures Reserved(ModifiedSoFar(s, a, who, now), Modified(s, a, b, last, who, now), b, Wider(s, a, last), s.attempts[a].isOption)
  {
    ModifiedSoFarKeepsNumbers(s, a, who, now);
    NextAttemptFits(s, ModifiedSoFar(s, a, who, now), s.attempts[a].incidentId, a, last, Wider(s, a, last));
  }

  lemma {:induction false} ModifyKeepsInv(s: State, a: Id, b: Id, last: Id, who: Id, now: Instant)
    requires Inv(s) && CanModify(s, a, b, last)
    ensures Inv(Modified(s, a, b, last, who, now))
  {
    ModifiedSoFarIsQuiet(s, a, who, now);
    WiderFits(s, a, b, last, who, now);
    NewAttemptKeepsInv(ModifiedSoFar(s, a, who, now), Modified(s, a, b, last, who, now), b, Wider(s, a, last), s.attempts[a].isOption);
  }

  // ----- options -----

  lemma {:induction false} ClearedIsQuiet(s: State, i: Id, now: Instant)
    requires Inv(s) && BaseIsCurrent(s, i) && forall b :: !Unsolved(s, b, i)
    ensures Inv(OptionsCleared(s, i, now)) && Quiet(OptionsCleared(s, i, now), i)
  {
    var v := Verdict(Reject, SYSTEM, now);
    SiblingsArePending(s, i, {});
    ClosedKeepsInv(s, i, PendingOf(s, i, {}), v);
    ClosingLeavesQuiet(s, i, {}, v);
    var closed := Closed(s, PendingOf(s, i, {}), v);
    IncidentStepKeepsInv(closed, i, Replanning);
    SameAttemptsSameQuiet(closed, OptionsCleared(s, i, now), i);
  }

  lemma {:induction false} SameAttemptsSameQuiet(s: State, t: State, i: Id)
    requires s.attempts == t.attempts && Quiet(s, i)
    ensures Quiet(t, i)
  {
    forall c ensures !Pending(t, c, i) && !Unsolved(t, c, i) {
      assert !Pending(s, c, i) && !Unsolved(s, c, i);
    }
  }

  lemma {:induction false} ClearedKeepsNumbers(s: State, i: Id, now: Instant)
    requires i in s.incidents
    ensures SameNumbering(s, OptionsCleared(s, i, now))
  {
  }

  /** The attempt that an options run reserves. */
  function FirstOption(s: State, i: Id, last: Option<Id>): Attempt
    requires i in s.incidents && (last.Some? ==> last.value in s.attempts)
  {
    NewAttempt(i, if last.Some? then s.attempts[last.value].no + 1 else 1, last, s.incidents[i].planId, AffectedRoute)
  }

  lemma {:induction false} FirstOptionFits(s: State, i: Id, a: Id, last: Option<Id>, regenerate: bool, now: Instant)
    requires Rows(s) && CanStartOptions(s, i, a, last, regenerate) && Quiet(OptionsCleared(s, i, now), i)
    ensures Fits(OptionsCleared(s, i, now), FirstOption(s, i, last))
    ensures Reserved(OptionsCleared(s, i, now), OptionsStarted(s, i, a, last, regenerate, now), a, FirstOption(s, i, last), true)
  {
    var t := OptionsCleared(s, i, now);
    ClearedKeepsNumbers(s, i, now);
    if last.Some? {
      NextAttemptFits(s, t, i, last.value, last.value, FirstOption(s, i, last));
    } else {
      NoneOfIncident(s, t, i);
    }
  }

  lemma {:induction false} NoneOfIncident(s: State, t: State, i: Id)
    requires SameNumbering(s, t) && forall b :: b in s.attempts ==> s.attempts[b].incidentId != i
    ensures forall b :: !Of(t, b, i)
  {
    forall b ensures !Of(t, b, i) {
      assert b in s.attempts ==> Kin(s.attempts[b], t.attempts[b]);
    }
  }

  lemma {:induction false} StartOptionsKeepsInv(s: State, i: Id, a: Id, last: Option<Id>, regenerate: bool, now: Instant)
    requires Inv(s) && CanStartOptions(s, i, a, last, regenerate)
    ensures Inv(OptionsStarted(s, i, a, last, regenerate, now))
  {
    assert forall b :: !Unsolved(s, b, i);
    ClearedIsQuiet(s, i, now);
    FirstOptionFits(s, i, a, last, regenerate, now);
    NewAttemptKeepsInv(OptionsCleared(s, i, now), OptionsStarted(s, i, a, last, regenerate, now), a, FirstOption(s, i, last), true);
  }

  /** Between two options of a batch: all that is under review are options, nobody works on the
      incident, and the attempt stored last is the last one. */
  ghost predicate InBatch(s: State, previous: Id) {
    && previous in s.attempts
    && var i := s.attempts[previous].incidentId;
       && BaseIsCurrent(s, i) && s.incidents[i].planId == s.attempts[previous].base && IsLastAttempt(s, previous, i)
       && forall b :: !Unsolved(s, b, i) && (Pending(s, b, i) ==> s.attempts[b].isOption)
  }

  /** Before the first option: the reserved attempt, without its worker. */
  ghost predicate BeforeBatch(s: State, a: Id) {
    && a in s.attempts && a !in s.workers
    && var i := s.attempts[a].incidentId;
       BaseIsCurrent(s, i) && s.incidents[i].planId == s.attempts[a].base && Unsolved(s, a, i)
  }

  /** The attempt an option is stored in. */
  function OptionRow(s: State, previous: Id, first: bool, o: Option_): Attempt
    requires previous in s.attempts
  {
    var x := s.attempts[previous];
    Offered(if first then x.(scope := o.scope) else NewAttempt(x.incidentId, x.no + 1, Some(previous), x.base, o.scope), o.planId, true)
  }

  lemma {:induction false} WorkersHaveAttempts(s: State)
    requires WorkersOk(s)
    ensures forall a :: a in s.workers ==> a in s.attempts
  {
    forall a | a in s.workers ensures a in s.attempts {
      assert WorkerOk(s, a);
    }
  }

  lemma {:induction false} OptionIsOffered(s: State, previous: Id, first: bool, o: Option_, latest: Option<Id>)
    requires PlansOk(s.plans) && WorkersOk(s) && CanAddOption(s, previous, first, o, latest) && (first ==> previous !in s.workers)
    ensures var t := OptionAdded(s, previous, first, o, latest);
            && OfferMade(s, t, o.attemptId, o.planId, CandidatePlan(s, s.attempts[previous].base, latest, o.consistent), OptionRow(s, previous, first, o))
            && PlansOk(t.plans)
  {
    CandidateFollows(s, s.attempts[previous].base, o.planId, latest, o.consistent);
    WorkersHaveAttempts(s);
  }

  lemma {:induction false} FirstOptionKeepsInv(s: State, a: Id, o: Option_, latest: Option<Id>)
    requires Inv(s) && BeforeBatch(s, a) && CanAddOption(s, a, true, o, latest)
    ensures Inv(OptionAdded(s, a, true, o, latest))
  {
    var t, y := OptionAdded(s, a, true, o, latest), OptionRow(s, a, true, o);
    OptionIsOffered(s, a, true, o, latest);
    assert RowOk(s, a);
    OfferKeepsInv(s, t, a, o.planId, CandidatePlan(s, s.attempts[a].base, latest, o.consistent), y);
  }

  lemma {:induction false} FirstOptionIsInBatch(s: State, a: Id, o: Option_, latest: Option<Id>)
    requires Rows(s) && Orderly(s) && BeforeBatch(s, a) && CanAddOption(s, a, true, o, latest)
    ensures InBatch(OptionAdded(s, a, true, o, latest), a)
  {
    var t, i := OptionAdded(s, a, true, o, latest), s.attempts[a].incidentId;
    var y := t.attempts[a];
    OthersAreTheSame(s, t, a, y);
    assert AtTheEnd(s, a, i);
    forall b ensures !Unsolved(t, b, i) && (Pending(t, b, i) ==> t.attempts[b].isOption) {
      if b != a && Unsolved(s, b, i) {
        assert AtTheEnd(s, b, i);
        OnlyOneUnsolved(s, a, b, i);
      }
      assert !Pending(s, b, i);
    }
  }

  lemma {:induction false} NextOptionKeepsInv(s: State, previous: Id, o: Option_, latest: Option<Id>)
    requires Inv(s) && InBatch(s, previous) && CanAddOption(s, previous, false, o, latest)
    ensures Inv(OptionAdded(s, previous, false, o, latest))
  {
    var t, y := OptionAdded(s, previous, false, o, latest), OptionRow(s, previous, false, o);
    OptionIsOffered(s, previous, false, o, latest);
    assert RowOk(s, previous);
    assert HasNumber(s, previous, y.incidentId, y.no - 1);
    FurtherOfferKeepsInv(s, t, o.attemptId, o.planId, CandidatePlan(s, s.attempts[previous].base, latest, o.consistent), y);
  }

  lemma {:induction false} NextOptionIsInBatch(s: State, previous: Id, o: Option_, latest: Option<Id>)
    requires InBatch(s, previous) && CanAddOption(s, previous, false, o, latest)
    ensures InBatch(OptionAdded(s, previous, false, o, latest), o.attemptId)
  {
    var t, i := OptionAdded(s, previous, false, o, latest), s.attempts[previous].incidentId;
    forall b ensures !Unsolved(t, b, i) && (Pending(t, b, i) ==> t.attempts[b].isOption) {
      assert b != o.attemptId ==> !Unsolved(s, b, i) && (Pending(s, b, i) ==> s.attempts[b].isOption);
    }
    forall b | b in t.attempts && t.attempts[b].incidentId == i ensures t.attempts[b].no <= t.attempts[o.attemptId].no {
      if b != o.attemptId { assert s.attempts[b].no <= s.attempts[previous].no; }
    }
  }

  /** The state after n options is good enough for one more. */
  ghost predicate BatchOk(s: State, previous: Id) {
    Inv(s) && InBatch(s, previous)
  }

  lemma {:induction false} FirstOptionStored(s: State, a: Id, o: Option_, latest: Option<Id>)
    requires Inv(s) && BeforeBatch(s, a) && CanAddOption(s, a, true, o, latest)
    ensures BatchOk(OptionAdded(s, a, true, o, latest), o.attemptId)
  {
    FirstOptionKeepsInv(s, a, o, latest);
    FirstOptionIsInBatch(s, a, o, latest);
  }

  lemma {:induction false} NextOptionStored(s: State, previous: Id, o: Option_, latest: Option<Id>)
    requires BatchOk(s, previous) && CanAddOption(s, previous, false, o, latest)
    ensures BatchOk(OptionAdded(s, previous, false, o, latest), o.attemptId)
  {
    NextOptionKeepsInv(s, previous, o, latest);
    NextOptionIsInBatch(s, previous, o, latest);
  }

  /** None when a batch was refused, otherwise good enough for one more. */
  ghost predicate BatchSoFar(s: Option<State>, previous: Id) {
    s.Some? ==> BatchOk(s.value, previous)
  }

  lemma {:induction false} OneMoreStored(s: Option<State>, previous: Id, o: Option_, latest: Option<Id>)
    requires BatchSoFar(s, previous)
    ensures BatchSoFar(OneMore(s, previous, false, o, latest), o.attemptId)
  {
    if s.Some? && CanAddOption(s.value, previous, false, o, latest) { NextOptionStored(s.value, previous, o, latest); }
  }

  lemma {:induction false} OneStored(s: State, a: Id, o: Option_, latest: Option<Id>)
    requires Inv(s) && BeforeBatch(s, a)
    ensures BatchSoFar(OneMore(Some(s), a, true, o, latest), o.attemptId)
  {
    if CanAddOption(s, a, true, o, latest) { FirstOptionStored(s, a, o, latest); }
  }

  lemma {:induction false} OptionsKeepInv(s: State, a: Id, options: seq<Option_>, latests: seq<Option<Id>>, n: nat)
    requires Inv(s) && BeforeBatch(s, a) && 0 < n <= |options| == |latests|
    ensures BatchSoFar(OptionsAdded(s, a, options, latests, n), options[n - 1].attemptId)
  {
    if n == 1 {
      OneStored(s, a, options[0], latests[0]);
      assert OptionsAdded(s, a, options, latests, 0) == Some(s);
    } else {
      OptionsKeepInv(s, a, options, latests, n - 1);
      OneMoreStored(OptionsAdded(s, a, options, latests, n - 1), options[n - 2].attemptId, options[n - 1], latests[n - 1]);
    }
  }

  ghost predicate UpToWorkers(s: Option<State>, t: Option<State>, workers: map<Id, Worker>) {
    t.Some? == s.Some? && (s.Some? ==> t.value == s.value.(workers := workers))
  }

  lemma {:induction false} OneMoreIgnoresWorkers(s: Option<State>, t: Option<State>, workers: map<Id, Worker>,
      previous: Id, first: bool, o: Option_, latest: Option<Id>)
    requires UpToWorkers(s, t, workers)
    ensures UpToWorkers(OneMore(s, previous, first, o, latest), OneMore(t, previous, first, o, latest), workers)
  {
  }

  /** Storing options does not look at the workers. */
  lemma {:induction false} OptionsIgnoreWorkers(s: State, t: State, a: Id, options: seq<Option_>, latests: seq<Option<Id>>, n: nat)
    requires n <= |options| == |latests| && t == s.(workers := t.workers)
    ensures UpToWorkers(OptionsAdded(s, a, options, latests, n), OptionsAdded(t, a, options, latests, n), t.workers)
  {
    if 0 < n {
      OptionsIgnoreWorkers(s, t, a, options, latests, n - 1);
      OneMoreIgnoresWorkers(OptionsAdded(s, a, options, latests, n - 1), OptionsAdded(t, a, options, latests, n - 1), t.workers,
                            Before(a, options, n - 1), n == 1, options[n - 1], latests[n - 1]);
    }
  }

  /** Every option stored so far is under review, and nothing but plans and attempts changed. */
  ghost predicate UnderReview(s: State, t: State, i: Id, options: seq<Option_>, n: nat)
    requires n <= |options|
  {
    t.incidents == s.incidents && t.workers == s.workers && forall k :: 0 <= k < n ==> Pending(t, options[k].attemptId, i)
  }

  lemma {:induction false} OneMoreUnderReview(t: State, i: Id, previous: Id, first: bool, o: Option_, latest: Option<Id>)
    requires CanAddOption(t, previous, first, o, latest) && t.attempts[previous].incidentId == i && (first ==> !Pending(t, previous, i))
    ensures Pending(OptionAdded(t, previous, first, o, latest), o.attemptId, i)
    ensures forall b :: Pending(t, b, i) ==> Pending(OptionAdded(t, previous, first, o, latest), b, i)
  {
  }

  lemma {:induction false} OptionsAreUnderReview(s: State, a: Id, options: seq<Option_>, latests: seq<Option<Id>>, n: nat)
    requires n <= |options| == |latests| && OptionsAdded(s, a, options, latests, n).Some?
    requires a in s.attempts && s.attempts[a].status == Draft
    ensures UnderReview(s, OptionsAdded(s, a, options, latests, n).value, s.attempts[a].incidentId, options, n)
  {
    if 0 < n {
      OptionsAreUnderReview(s, a, options, latests, n - 1);
      var sofar := OptionsAdded(s, a, options, latests, n - 1).value;
      if 1 < n { assert Pending(sofar, options[n - 2].attemptId, s.attempts[a].incidentId); }
      OneMoreUnderReview(sofar, s.attempts[a].incidentId, Before(a, options, n - 1), n == 1, options[n - 1], latests[n - 1]);
    }
  }

  lemma {:induction false} FilteredIsRetired(t: State, i: Id, beyond: set<Id>)
    requires Rows(t) && AllPending(t, i, beyond)
    ensures Retired(t, Filtered(t, beyond), i, beyond)
  {
    forall b | b in beyond ensures RetiredRow(t.attempts[b], Filtered(t, beyond).attempts[b]) {
      assert Pending(t, b, i) && RowOk(t, b);
    }
  }

  /** Cut-off and incident, once all options are stored. */
  lemma {:induction false} CutOffKeepsInv(t: State, i: Id, beyond: set<Id>)
    requires Inv(t) && AllPending(t, i, beyond) && i in t.incidents && t.incidents[i].status != Resolved
    ensures Inv(Filtered(t, beyond).(incidents := t.incidents[i := t.incidents[i].(status := Review)]))
  {
    FilteredIsRetired(t, i, beyond);
    RetireKeepsInv(t, Filtered(t, beyond), i, beyond);
    IncidentStepKeepsInv(Filtered(t, beyond), i, Review);
  }

  lemma {:induction false} WorkerHandsOver(s: State, a: Id)
    requires Inv(s) && IsSolving(s, a, true)
    requires BaseIsCurrent(s, s.attempts[a].incidentId) && s.incidents[s.attempts[a].incidentId].planId == s.attempts[a].base
    ensures Inv(Abandoned(s, a)) && BeforeBatch(Abandoned(s, a), a)
  {
    WorkerLeaves(s, a);
    assert WorkerOk(s, a);
  }

  lemma {:induction false} StoreOptionsKeepsInv(s: State, a: Id, options: seq<Option_>, latests: seq<Option<Id>>, beyond: set<Id>)
    requires Inv(s) && CanStoreOptions(s, a, options, latests, beyond)
    ensures Inv(OptionsStored(s, a, options, latests, beyond))
  {
    if options == [] {
      StoreNothingKeepsInv(s, a, latests, beyond);
    } else {
      StoreSomeKeepsInv(s, a, options, latests, beyond);
    }
  }

  lemma {:induction false} StoreNothingKeepsInv(s: State, a: Id, latests: seq<Option<Id>>, beyond: set<Id>)
    requires Inv(s) && CanStoreOptions(s, a, [], latests, beyond)
    ensures Inv(OptionsStored(s, a, [], latests, beyond))
  {
    assert WorkerOk(s, a) && RowOk(s, a);
    var y := s.attempts[a].(solver := Some(OutcomeInfeasible));
    RecordKeepsInv(s, a, y, s.workers - {a});
    IncidentStepKeepsInv(s.(attempts := s.attempts[a := y], workers := s.workers - {a}), y.incidentId, Assessing);
  }

  lemma {:induction false} StoreSomeKeepsInv(s: State, a: Id, options: seq<Option_>, latests: seq<Option<Id>>, beyond: set<Id>)
    requires Inv(s) && CanStoreOptions(s, a, options, latests, beyond) && options != []
    ensures Inv(OptionsStored(s, a, options, latests, beyond))
  {
    var alone, i, n := Abandoned(s, a), s.attempts[a].incidentId, |options|;
    WorkerHandsOver(s, a);
    OptionsIgnoreWorkers(s, alone, a, options, latests, n);
    OptionsKeepInv(alone, a, options, latests, n);
    var t := OptionsAdded(alone, a, options, latests, n).value;
    OptionsAreUnderReview(alone, a, options, latests, n);
    forall b | b in beyond ensures Pending(t, b, i) {
      var k :| 0 <= k < |options| && options[k].attemptId == b;
      assert Pending(t, options[k].attemptId, i);
    }
    CutOffKeepsInv(t, i, beyond);
  }
}

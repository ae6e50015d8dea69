/** Theorems over every run of the protocol: what holds in each reachable state, what is final, and
    which plan can become current. */
module ProtocolHistory {
  import opened Ordering
  import opened Domain
  import opened Protocol
  import opened ProtocolLaws
  import opened ProtocolRuns

  // ----- the invariant over runs -----

  lemma {:induction false} PlanningKeepsInv(s: State, e: Event)
    requires Inv(s) && Enabled(s, e) && (e.EGenerate? || e.EConfirm? || e.EReport? || e.EFacts?)
    ensures Inv(Apply(s, e))
  {
    match e
    case EGenerate(date, latest, p, g, draft, now) => GenerateKeepsInv(s, date, latest, p, g, draft, now);
    case EConfirm(p, now) => ConfirmKeepsInv(s, p, now);
    case EReport(i, p, at, replan) => ReportKeepsInv(s, i, p, at, replan);
    case EFacts(obstructed) => FactsKeepInv(s, obstructed);
  }

  lemma {:induction false} ReviewKeepsInv(s: State, e: Event)
    requires Inv(s) && Enabled(s, e) && (e.EApprove? || e.EReject? || e.EModify?)
    ensures Inv(Apply(s, e))
  {
    match e
    case EApprove(a, who, now) => ApproveKeepsInv(s, a, who, now);
    case EReject(a, who, now) => RejectKeepsInv(s, a, who, now);
    case EModify(a, b, last, who, now) => ModifyKeepsInv(s, a, b, last, who, now);
  }

  lemma {:induction false} OptionsRunKeepsInv(s: State, e: Event)
    requires Inv(s) && Enabled(s, e) && (e.EStartOptions? || e.EStoreOptions?)
    ensures Inv(Apply(s, e))
  {
    match e
    case EStartOptions(i, a, last, regenerate, now) => StartOptionsKeepsInv(s, i, a, last, regenerate, now);
    case EStoreOptions(a, options, latests, beyond) => StoreOptionsKeepsInv(s, a, options, latests, beyond);
  }

  predicate OfOneWorker(e: Event) {
    e.EStart? || e.EInfeasible? || e.EError? || e.EInvalid? || e.EAbandon? || e.EExpand? || e.EPropose?
  }

  lemma {:induction false} WorkKeepsInv(s: State, e: Event)
    requires Inv(s) && Enabled(s, e) && OfOneWorker(e)
    ensures Inv(Apply(s, e))
  {
    match e
    case EStart(i, a) => StartKeepsInv(s, i, a);
    case EInfeasible(a) => InfeasibleKeepsInv(s, a);
    case EError(a) => ErrorKeepsInv(s, a);
    case EInvalid(a) => InvalidKeepsInv(s, a);
    case EAbandon(a) => WorkerLeaves(s, a);
    case EExpand(a, b) => ExpandKeepsInv(s, a, b);
    case EPropose(a, p, latest, consistent) => ProposeKeepsInv(s, a, p, latest, consistent);
  }

  lemma {:induction false} ApplyKeepsInv(s: State, e: Event)
    requires Inv(s) && Enabled(s, e)
    ensures Inv(Apply(s, e))
  {
    if OfOneWorker(e) {
      WorkKeepsInv(s, e);
    } else if e.EGenerate? || e.EConfirm? || e.EReport? || e.EFacts? {
      PlanningKeepsInv(s, e);
    } else if e.EStartOptions? || e.EStoreOptions? {
      OptionsRunKeepsInv(s, e);
    } else {
      ReviewKeepsInv(s, e);
    }
  }

  /** Every reachable state is in order, whatever transactions are attempted in whatever order. */
  lemma {:induction false} RunKeepsInv(s: State, events: seq<Event>)
    requires Inv(s)
    ensures Inv(Run(s, events))
    decreases |events|
  {
    if events != [] {
      var n := |events| - 1;
      RunKeepsInv(s, events[..n]);
      if Enabled(Run(s, events[..n]), events[n]) { ApplyKeepsInv(Run(s, events[..n]), events[n]); }
    }
  }

  ghost predicate Reachable(s: State) {
    exists events :: s == Run(EMPTY, events)
  }

  lemma {:induction false} ReachableIsInOrder(s: State)
    requires Reachable(s)
    ensures Inv(s)
  {
    EmptyIsOk();
    var events :| s == Run(EMPTY, events);
    RunKeepsInv(EMPTY, events);
  }

  // ----- how plans move in one transaction -----

  /** A plan moves as a plan may; a candidate becomes current only together with the end of its
      own base. */
  ghost predicate Advances(x: map<Id, Plan>, y: map<Id, Plan>, p: Id)
    requires p in x
  {
    && p in y && PlanMoves(x[p], y[p])
    && (x[p].status == PlanCandidate && y[p].status == PlanCurrent ==>
          x[p].parent.Some? && Replaced(x, y, x[p].parent.value))
  }

  ghost predicate Replaced(x: map<Id, Plan>, y: map<Id, Plan>, p: Id) {
    p in x && x[p].status == PlanCurrent && p in y && y[p].status == PlanSuperseded
  }

  ghost predicate PlansAdvance(x: map<Id, Plan>, y: map<Id, Plan>) {
    forall p :: p in x ==> Advances(x, y, p)
  }

  /** Only cancels candidates. */
  ghost predicate Cancels(x: map<Id, Plan>, y: map<Id, Plan>) {
    forall p :: p in x ==> p in y && CancelledOrSame(x[p], y[p])
  }

  ghost predicate CancelledOrSame(x: Plan, y: Plan) {
    y == x || (x.status == PlanCandidate && y == x.(status := PlanCancelled))
  }

  lemma {:induction false} ThenCancel(x: map<Id, Plan>, y: map<Id, Plan>, z: map<Id, Plan>)
    requires PlansAdvance(x, y) && Cancels(y, z)
    ensures PlansAdvance(x, z)
  {
    forall p | p in x ensures Advances(x, z, p) {
      assert Advances(x, y, p) && CancelledOrSame(y[p], z[p]);
      if x[p].status == PlanCandidate && z[p].status == PlanCurrent {
        assert CancelledOrSame(y[x[p].parent.value], z[x[p].parent.value]);
      }
    }
  }

  lemma {:induction false} CancelsAdvances(x: map<Id, Plan>, y: map<Id, Plan>)
    requires Cancels(x, y)
    ensures PlansAdvance(x, y)
  {
    forall p | p in x ensures Advances(x, y, p) {
      assert CancelledOrSame(x[p], y[p]);
    }
  }

  lemma {:induction false} CancelTwice(x: map<Id, Plan>, y: map<Id, Plan>, z: map<Id, Plan>)
    requires Cancels(x, y) && Cancels(y, z)
    ensures Cancels(x, z)
  {
    forall p | p in x ensures p in z && CancelledOrSame(x[p], z[p]) {
      assert CancelledOrSame(x[p], y[p]) && CancelledOrSame(y[p], z[p]);
    }
  }

  /** Cancelling the plans of attempts under review cancels candidates only. */
  lemma {:induction false} CancellingPending(s: State, i: Id, closing: set<Id>)
    requires Paired(s) && AllPending(s, i, closing)
    ensures Cancels(s.plans, CancelledPlans(s.plans, s.attempts, closing))
  {
    var after := CancelledPlans(s.plans, s.attempts, closing);
    forall p | p in s.plans ensures p in after && CancelledOrSame(s.plans[p], after[p]) {
      if a :| a in closing && a in s.attempts && s.attempts[a].candidate == Some(p) {
        assert Pending(s, a, i);
      }
    }
  }

  lemma {:induction false} SiblingsClosedCancels(s: State, a: Id, v: Verdict)
    requires Paired(s) && a in s.attempts
    ensures Cancels(s.plans, SiblingsClosed(s, a, v).plans)
  {
    SiblingsArePending(s, s.attempts[a].incidentId, {a});
    CancellingPending(s, s.attempts[a].incidentId, PendingOf(s, s.attempts[a].incidentId, {a}));
  }

  lemma {:induction false} ApprovalAdvances(s: State, a: Id, v: Verdict)
    requires Reviewable(s, a) && s.attempts[a].candidate != Some(s.attempts[a].base)
    ensures PlansAdvance(s.plans, ApprovedOne(s, a, v).plans)
  {
  }

  lemma {:induction false} ApprovedOneKeepsInv(s: State, a: Id, v: Verdict)
    requires Inv(s) && CanApprove(s, a, v.at) && v.decision == Approve
    ensures Inv(ApprovedOne(s, a, v)) && s.attempts[a].candidate != Some(s.attempts[a].base)
  {
    assert RowOk(s, a);
    ApprovalKeepsInv(s, ApprovedOne(s, a, v), a, v);
  }

  lemma {:induction false} ApproveAdvances(s: State, a: Id, who: Id, now: Instant)
    requires Inv(s) && CanApprove(s, a, now)
    ensures PlansAdvance(s.plans, Approved(s, a, who, now).plans)
  {
    var v := Verdict(Approve, who, now);
    var t := ApprovedOne(s, a, v);
    ApprovedOneKeepsInv(s, a, v);
    ApprovalAdvances(s, a, v);
    SiblingsClosedCancels(t, a, Verdict(Reject, who, now));
    ThenCancel(s.plans, t.plans, Approved(s, a, who, now).plans);
  }

  lemma {:induction false} DeclinedOneCancels(s: State, a: Id, v: Verdict, status: IncidentStatus)
    requires Reviewable(s, a)
    ensures Cancels(s.plans, DeclinedOne(s, a, v, status).plans)
  {
  }

  lemma {:induction false} ModifyCancels(s: State, a: Id, who: Id, now: Instant)
    requires Inv(s) && Reviewable(s, a)
    ensures Cancels(s.plans, ModifiedSoFar(s, a, who, now).plans)
  {
    var t := DeclinedOne(s, a, Verdict(Modify, who, now), Replanning);
    DeclinedOneKeepsInv(s, a, Verdict(Modify, who, now), Replanning);
    DeclinedOneCancels(s, a, Verdict(Modify, who, now), Replanning);
    SiblingsClosedCancels(t, a, Verdict(Reject, who, now));
    CancelTwice(s.plans, t.plans, ModifiedSoFar(s, a, who, now).plans);
  }

  lemma {:induction false} ClearingCancels(s: State, i: Id, now: Instant)
    requires Inv(s) && i in s.incidents
    ensures Cancels(s.plans, OptionsCleared(s, i, now).plans)
  {
    SiblingsArePending(s, i, {});
    CancellingPending(s, i, PendingOf(s, i, {}));
  }

  lemma {:induction false} OptionsOnlyAddPlans(s: State, a: Id, options: seq<Option_>, latests: seq<Option<Id>>, n: nat)
    requires n <= |options| == |latests| && OptionsAdded(s, a, options, latests, n).Some?
    ensures forall p :: p in s.plans ==> p in OptionsAdded(s, a, options, latests, n).value.plans &&
                                         OptionsAdded(s, a, options, latests, n).value.plans[p] == s.plans[p]
  {
    if 0 < n { OptionsOnlyAddPlans(s, a, options, latests, n - 1); }
  }

  /** The batch as it is stored, before the cut-off. */
  ghost predicate Stored(s: State, t: State, a: Id, options: seq<Option_>, latests: seq<Option<Id>>)
    requires |options| == |latests|
  {
    OptionsAdded(Abandoned(s, a), a, options, latests, |options|) == Some(t)
  }

  lemma {:induction false} BatchIsInOrder(s: State, a: Id, options: seq<Option_>, latests: seq<Option<Id>>, beyond: set<Id>) returns (t: State)
    requires Inv(s) && CanStoreOptions(s, a, options, latests, beyond) && options != []
    ensures Stored(s, t, a, options, latests) && Inv(t)
    ensures t == OptionsAdded(s, a, options, latests, |options|).value.(workers := s.workers - {a})
  {
    WorkerHandsOver(s, a);
    OptionsIgnoreWorkers(s, Abandoned(s, a), a, options, latests, |options|);
    OptionsKeepInv(Abandoned(s, a), a, options, latests, |options|);
    t := OptionsAdded(Abandoned(s, a), a, options, latests, |options|).value;
  }

  lemma {:induction false} BatchIsPending(s: State, t: State, a: Id, options: seq<Option_>, latests: seq<Option<Id>>, beyond: set<Id>)
    requires Inv(s) && CanStoreOptions(s, a, options, latests, beyond) && Stored(s, t, a, options, latests)
    ensures AllPending(t, s.attempts[a].incidentId, beyond)
  {
    assert WorkerOk(s, a);
    OptionsAreUnderReview(Abandoned(s, a), a, options, latests, |options|);
    forall b | b in beyond ensures Pending(t, b, s.attempts[a].incidentId) {
      var k :| 0 <= k < |options| && options[k].attemptId == b;
      assert Pending(t, options[k].attemptId, s.attempts[a].incidentId);
    }
  }

  lemma {:induction false} StoreAdvances(s: State, a: Id, options: seq<Option_>, latests: seq<Option<Id>>, beyond: set<Id>)
    requires Inv(s) && CanStoreOptions(s, a, options, latests, beyond)
    ensures PlansAdvance(s.plans, OptionsStored(s, a, options, latests, beyond).plans)
  {
    if options != [] {
      var t := BatchIsInOrder(s, a, options, latests, beyond);
      BatchIsPending(s, t, a, options, latests, beyond);
      OptionsOnlyAddPlans(Abandoned(s, a), a, options, latests, |options|);
      CancellingPending(t, s.attempts[a].incidentId, beyond);
      ThenCancel(s.plans, t.plans, OptionsStored(s, a, options, latests, beyond).plans);
    }
  }

  lemma {:induction false} PlanningAdvances(s: State, e: Event)
    requires Enabled(s, e) && (e.EGenerate? || e.EConfirm? || e.EPropose?)
    ensures PlansAdvance(s.plans, Apply(s, e).plans)
  {
  }

  lemma {:induction false} RejectAdvances(s: State, a: Id, who: Id, now: Instant)
    requires Reviewable(s, a)
    ensures PlansAdvance(s.plans, Rejected(s, a, who, now).plans)
  {
    CancelsAdvances(s.plans, Rejected(s, a, who, now).plans);
  }

  lemma {:induction false} ModifyAdvances(s: State, a: Id, b: Id, last: Id, who: Id, now: Instant)
    requires Inv(s) && CanModify(s, a, b, last)
    ensures PlansAdvance(s.plans, Modified(s, a, b, last, who, now).plans)
  {
    ModifyCancels(s, a, who, now);
    CancelsAdvances(s.plans, Modified(s, a, b, last, who, now).plans);
  }

  lemma {:induction false} StartOptionsAdvances(s: State, i: Id, a: Id, last: Option<Id>, regenerate: bool, now: Instant)
    requires Inv(s) && CanStartOptions(s, i, a, last, regenerate)
    ensures PlansAdvance(s.plans, OptionsStarted(s, i, a, last, regenerate, now).plans)
  {
    ClearingCancels(s, i, now);
    CancelsAdvances(s.plans, OptionsStarted(s, i, a, last, regenerate, now).plans);
  }

  lemma {:induction false} DecisionAdvances(s: State, e: Event)
    requires Inv(s) && Enabled(s, e) && (e.EReject? || e.EModify? || e.EStartOptions?)
    ensures PlansAdvance(s.plans, Apply(s, e).plans)
  {
    match e
    case EReject(a, who, now) => RejectAdvances(s, a, who, now);
    case EModify(a, b, last, who, now) => ModifyAdvances(s, a, b, last, who, now);
    case EStartOptions(i, a, last, regenerate, now) => StartOptionsAdvances(s, i, a, last, regenerate, now);
  }

  predicate LeavesPlans(e: Event) {
    e.EReport? || e.EFacts? || e.EStart? || e.EInfeasible? || e.EError? || e.EInvalid? || e.EAbandon? || e.EExpand?
  }

  lemma {:induction false} OthersAdvance(s: State, e: Event)
    requires Enabled(s, e) && LeavesPlans(e)
    ensures PlansAdvance(s.plans, Apply(s, e).plans)
  {
    assert Apply(s, e).plans == s.plans;
  }

  /** Whatever the transaction, every plan moves as a plan may. */
  lemma {:induction false} StepAdvances(s: State, e: Event)
    requires Inv(s)
    ensures PlansAdvance(s.plans, Step(s, e).plans)
  {
    if Enabled(s, e) {
      if LeavesPlans(e) {
        OthersAdvance(s, e);
      } else if e.EApprove? {
        ApproveAdvances(s, e.attemptId, e.who, e.now);
      } else if e.EStoreOptions? {
        StoreAdvances(s, e.attemptId, e.options, e.latests, e.beyond);
      } else if e.EGenerate? || e.EConfirm? || e.EPropose? {
        PlanningAdvances(s, e);
      } else {
        DecisionAdvances(s, e);
      }
    }
  }

  // ----- what is final -----

  /** What a plan may have become since. */
  ghost predicate Descends(x: Plan, y: Plan) {
    && SamePlan(x, y)
    && (x.status in {PlanSuperseded, PlanCancelled} ==> y == x)
    && (x.status == PlanCurrent ==> y.status in {PlanCurrent, PlanSuperseded})
    && (x.status != PlanDraft ==> y.status != PlanDraft)
    && (x.status != PlanCandidate ==> y.status != PlanCandidate)
  }

  ghost predicate PlansDescend(x: map<Id, Plan>, y: map<Id, Plan>) {
    forall p :: p in x ==> p in y && Descends(x[p], y[p])
  }

  lemma {:induction false} DescendsThenAdvances(x: map<Id, Plan>, y: map<Id, Plan>, z: map<Id, Plan>)
    requires PlansDescend(x, y) && PlansAdvance(y, z)
    ensures PlansDescend(x, z)
  {
    forall p | p in x ensures p in z && Descends(x[p], z[p]) {
      assert Descends(x[p], y[p]) && Advances(y, z, p);
    }
  }

  /** Over any run: no plan disappears, its lineage is fixed, and SUPERSEDED and CANCELLED are
      final. */
  lemma {:induction false} PlansOnlyMoveForward(s: State, events: seq<Event>)
    requires Inv(s)
    ensures PlansDescend(s.plans, Run(s, events).plans)
    decreases |events|
  {
    if events != [] {
      var n := |events| - 1;
      PlansOnlyMoveForward(s, events[..n]);
      RunKeepsInv(s, events[..n]);
      StepAdvances(Run(s, events[..n]), events[n]);
      DescendsThenAdvances(s.plans, Run(s, events[..n]).plans, Run(s, events).plans);
    }
  }

  /** A candidate whose base is history. */
  ghost predicate Doomed(plans: map<Id, Plan>, p: Id) {
    && p in plans && plans[p].status in {PlanCandidate, PlanCancelled}
    && plans[p].parent.Some? && plans[p].parent.value in plans && plans[plans[p].parent.value].status == PlanSuperseded
  }

  lemma {:induction false} DoomedStays(x: map<Id, Plan>, y: map<Id, Plan>, p: Id)
    requires Doomed(x, p) && PlansAdvance(x, y)
    ensures Doomed(y, p)
  {
    assert Advances(x, y, p) && Advances(x, y, x[p].parent.value);
  }

  /** A candidate whose base was superseded never becomes current. */
  lemma {:induction false} LateCandidateNeverCurrent(s: State, p: Id, events: seq<Event>)
    requires Inv(s) && Doomed(s.plans, p)
    ensures Doomed(Run(s, events).plans, p)
    decreases |events|
  {
    if events != [] {
      var n := |events| - 1;
      LateCandidateNeverCurrent(s, p, events[..n]);
      RunKeepsInv(s, events[..n]);
      StepAdvances(Run(s, events[..n]), events[n]);
      DoomedStays(Run(s, events[..n]).plans, Run(s, events).plans, p);
    }
  }
}

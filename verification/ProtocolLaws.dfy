/** What every run of planning, recovery and review transactions keeps. */
module ProtocolLaws {
  import opened Ordering
  import opened Domain
  import opened Protocol

  // ----- plans -----

  ghost predicate SameDate(plans: map<Id, Plan>, p: Id, q: Id) {
    p in plans && q in plans && plans[p].date == plans[q].date
  }

  /** The CHECK constraints of a plan and its lineage. */
  ghost predicate PlanOk(plans: map<Id, Plan>, p: Id)
    requires p in plans
  {
    && 0 < plans[p].version
    && (plans[p].parent == None <==> plans[p].version == 1)
    && (plans[p].parent.Some? ==>
         SameDate(plans, plans[p].parent.value, p) && plans[plans[p].parent.value].version < plans[p].version)
    && (plans[p].status == PlanCurrent ==> plans[p].activatedAt.Some?)
    && (plans[p].status == PlanSuperseded ==> plans[p].supersededAt.Some?)
  }

  /** One group per date, versions distinct, at most one current plan. */
  ghost predicate Compatible(plans: map<Id, Plan>, p: Id, q: Id)
    requires p in plans && q in plans
  {
    && plans[p].group == plans[q].group
    && (plans[p].version == plans[q].version ==> p == q)
    && (plans[p].status == PlanCurrent && plans[q].status == PlanCurrent ==> p == q)
  }

  ghost predicate PlansOk(plans: map<Id, Plan>) {
    && (forall p :: p in plans ==> PlanOk(plans, p))
    && (forall p, q :: SameDate(plans, p, q) ==> Compatible(plans, p, q))
  }

  /** What a plan never changes. */
  ghost predicate SamePlan(x: Plan, y: Plan) {
    y.date == x.date && y.group == x.group && y.version == x.version && y.parent == x.parent && y.consistent == x.consistent
  }

  /** The ways a plan may move. */
  ghost predicate PlanMoves(x: Plan, y: Plan) {
    && SamePlan(x, y)
    && (|| y == x
        || (y.status == PlanCancelled && x.status in {PlanDraft, PlanCandidate})
        || (y.status == PlanCurrent && x.status in {PlanDraft, PlanCandidate} && y.activatedAt.Some?)
        || (y.status == PlanSuperseded && x.status == PlanCurrent && y.supersededAt.Some?))
  }

  ghost predicate PlansMove(x: map<Id, Plan>, y: map<Id, Plan>) {
    forall p :: p in x ==> p in y && PlanMoves(x[p], y[p])
  }

  ghost predicate OneCurrent(plans: map<Id, Plan>) {
    forall p, q :: SameDate(plans, p, q) && plans[p].status == PlanCurrent && plans[q].status == PlanCurrent ==> p == q
  }

  lemma {:induction false} MovesKeepPlansOk(x: map<Id, Plan>, y: map<Id, Plan>)
    requires PlansOk(x) && y.Keys == x.Keys && PlansMove(x, y) && OneCurrent(y)
    ensures PlansOk(y)
  {
    forall p | p in y ensures PlanOk(y, p) {
      assert PlanMoves(x[p], y[p]) && PlanOk(x, p);
      if x[p].parent.Some? {
        assert PlanMoves(x[x[p].parent.value], y[x[p].parent.value]);
      }
    }
    forall p, q | SameDate(y, p, q) ensures Compatible(y, p, q) {
      assert PlanMoves(x[p], y[p]) && PlanMoves(x[q], y[q]);
      assert SameDate(x, p, q) && Compatible(x, p, q);
    }
  }

  /** A new plan numbered after the latest one of its date. */
  ghost predicate Follows(plans: map<Id, Plan>, latest: Option<Id>, plan: Plan) {
    match latest
    case None => plan.version == 1 && plan.parent == None && forall q :: q in plans ==> plans[q].date != plan.date
    case Some(l) =>
      && l in plans && plans[l].date == plan.date && plan.version == plans[l].version + 1 && plan.group == plans[l].group
      && (forall q :: q in plans && plans[q].date == plan.date ==> plans[q].version <= plans[l].version)
      && plan.parent.Some? && plan.parent.value in plans && plans[plan.parent.value].date == plan.date
  }

  lemma {:induction false} AddPlanKeepsOk(plans: map<Id, Plan>, p: Id, plan: Plan, latest: Option<Id>)
    requires PlansOk(plans) && p !in plans && Follows(plans, latest, plan)
    requires plan.status in {PlanDraft, PlanCandidate, PlanCurrent} && (plan.status == PlanCurrent ==> plan.activatedAt.Some?)
    requires plan.status == PlanCurrent ==> forall q :: q in plans && plans[q].date == plan.date ==> plans[q].status != PlanCurrent
    ensures PlansOk(plans[p := plan])
  {
    var after := plans[p := plan];
    forall q | q in after ensures PlanOk(after, q) {
      if q != p { assert PlanOk(plans, q); }
    }
    forall q, r | SameDate(after, q, r) ensures Compatible(after, q, r) {
      if q != p && r != p {
        assert SameDate(plans, q, r);
      } else if latest.Some? {
        assert q != p ==> SameDate(plans, q, latest.value);
        assert r != p ==> SameDate(plans, r, latest.value);
      }
    }
  }

  // ----- incidents and attempts -----

  ghost predicate IncidentOk(s: State, i: Id)
    requires i in s.incidents
  {
    && s.incidents[i].planId in s.plans
    && (s.incidents[i].status == Resolved <==> s.incidents[i].resolvedAt.Some?)
    && (s.incidents[i].resolvedAt.Some? ==> s.incidents[i].detectedAt <= s.incidents[i].resolvedAt.value)
  }

  /** The CHECK constraints of recovery_plans. */
  ghost predicate Checks(x: Attempt) {
    && 0 < x.no && (x.no == 1 <==> x.previous == None)
    && x.candidate != Some(x.base)
    && (x.candidate.Some? ==> x.solver == Some(OutcomeFeasible) && x.validation == Some(Valid))
    && (x.status == Draft ==> x.verdict == None)
    && (x.status == PendingReview ==> x.candidate.Some? && x.explained && x.verdict == None)
    && (x.status == Decided ==> x.candidate.Some? && x.explained && x.verdict.Some?)
    && match x.solver
       case None => x.validation == None && x.candidate == None
       case Some(OutcomeFeasible) => x.validation == Some(Valid) || (x.validation == Some(Invalid) && x.candidate == None)
       case Some(_) => x.validation == None && x.candidate == None && x.status == Draft
  }

  /** The candidate of an attempt is a child of its base. */
  ghost predicate CandidateOk(s: State, x: Attempt) {
    x.candidate.Some? ==>
      && x.candidate.value in s.plans && x.base in s.plans
      && s.plans[x.candidate.value].parent == Some(x.base)
      && s.plans[x.candidate.value].date == s.plans[x.base].date && s.plans[x.candidate.value].group == s.plans[x.base].group
  }

  ghost predicate HasNumber(s: State, a: Id, i: Id, no: nat) {
    Of(s, a, i) && s.attempts[a].no == no
  }

  ghost predicate NumberTaken(s: State, i: Id, no: nat) {
    exists b :: HasNumber(s, b, i, no)
  }

  /** Its predecessor came earlier, and the number before its own is taken. */
  ghost predicate PreviousOk(s: State, x: Attempt) {
    && (x.previous.Some? ==> Of(s, x.previous.value, x.incidentId) && s.attempts[x.previous.value].no < x.no)
    && (1 < x.no ==> NumberTaken(s, x.incidentId, x.no - 1))
  }

  ghost predicate RowOk(s: State, a: Id)
    requires a in s.attempts
  {
    var x := s.attempts[a];
    && Checks(x) && CandidateOk(s, x) && PreviousOk(s, x)
    && x.incidentId in s.incidents && x.base == s.incidents[x.incidentId].planId && x.base in s.plans
  }

  ghost predicate Rows(s: State) {
    && (forall i :: i in s.incidents ==> IncidentOk(s, i))
    && (forall a :: a in s.attempts ==> RowOk(s, a))
    && (forall a, b, i, no :: HasNumber(s, a, i, no) && HasNumber(s, b, i, no) ==> a == b)
  }

  ghost predicate Carries(s: State, a: Id, p: Id) {
    a in s.attempts && s.attempts[a].candidate == Some(p)
  }

  /** Attempts under review and candidate plans correspond one to one. */
  ghost predicate Paired(s: State) {
    && (forall a, b, p :: Carries(s, a, p) && Carries(s, b, p) ==> a == b)
    && (forall a, i :: Pending(s, a, i) ==> s.attempts[a].candidate.Some? && IsPlan(s, s.attempts[a].candidate.value, PlanCandidate))
    && (forall p :: IsPlan(s, p, PlanCandidate) ==> exists a :: Carries(s, a, p) && s.attempts[a].status == PendingReview)
  }

  /** Nothing of the incident waits for a worker or a dispatcher. */
  ghost predicate Quiet(s: State, i: Id) {
    forall b :: !Pending(s, b, i) && !Unsolved(s, b, i)
  }

  ghost predicate AtTheEnd(s: State, a: Id, i: Id) {
    IsLastAttempt(s, a, i) && forall b :: !Pending(s, b, i)
  }

  /** An attempt being worked on is the last of its incident and no other is under review; several
      may be under review together only as options. */
  ghost predicate Orderly(s: State) {
    && (forall a, i :: Unsolved(s, a, i) ==> AtTheEnd(s, a, i))
    && (forall a, b, i :: Pending(s, a, i) && Pending(s, b, i) && a != b ==> s.attempts[a].isOption)
  }

  ghost predicate ApprovedIn(s: State, a: Id, i: Id) {
    Of(s, a, i) && s.attempts[a].verdict.Some? && s.attempts[a].verdict.value.decision == Approve
  }

  /** An attempt of a resolved incident. */
  ghost predicate Past(s: State, a: Id) {
    a in s.attempts && s.attempts[a].incidentId in s.incidents && s.incidents[s.attempts[a].incidentId].status == Resolved
  }

  /** An incident is approved at most once; its base is history then. */
  ghost predicate ApprovedOnce(s: State) {
    && (forall a :: Past(s, a) ==> IsPlan(s, s.attempts[a].base, PlanSuperseded))
    && (forall a, b, i :: ApprovedIn(s, a, i) && ApprovedIn(s, b, i) ==> a == b)
    && (forall a, i :: ApprovedIn(s, a, i) ==>
         IsPlan(s, s.attempts[a].base, PlanSuperseded) && i in s.incidents && s.incidents[i].status == Resolved)
  }

  ghost predicate WorkerOk(s: State, a: Id)
    requires a in s.workers
  {
    && a in s.attempts
    && var i := s.attempts[a].incidentId;
       if s.workers[a].Solving? then Unsolved(s, a, i)
       else s.attempts[a].status == Draft && s.attempts[a].solver == Some(OutcomeInfeasible) && (IsLastAttempt(s, a, i) ==> Quiet(s, i))
  }

  ghost predicate WorkersOk(s: State) {
    forall a :: a in s.workers ==> WorkerOk(s, a)
  }

  ghost predicate Inv(s: State) {
    PlansOk(s.plans) && Rows(s) && Paired(s) && Orderly(s) && ApprovedOnce(s) && WorkersOk(s)
  }

  lemma {:induction false} EmptyIsOk()
    ensures Inv(EMPTY)
  {
  }

  // ----- keeping the rows -----

  /** What an attempt never changes. */
  ghost predicate Kin(x: Attempt, y: Attempt) {
    y.incidentId == x.incidentId && y.no == x.no && y.previous == x.previous && y.base == x.base
  }

  /** The same attempts and incidents, with other statuses. */
  ghost predicate SameRows(s: State, t: State) {
    && t.attempts.Keys == s.attempts.Keys && (forall a :: a in s.attempts ==> Kin(s.attempts[a], t.attempts[a]))
    && t.incidents.Keys == s.incidents.Keys
    && (forall i :: i in s.incidents ==> t.incidents[i].planId == s.incidents[i].planId)
    && PlansMove(s.plans, t.plans)
  }

  lemma {:induction false} SameNumbers(s: State, t: State)
    requires SameRows(s, t)
    ensures forall a, i, no :: HasNumber(t, a, i, no) == HasNumber(s, a, i, no)
    ensures forall a, i :: Of(t, a, i) == Of(s, a, i) && IsLastAttempt(t, a, i) == IsLastAttempt(s, a, i)
  {
    forall a, i ensures Of(t, a, i) == Of(s, a, i) {
      assert a in s.attempts ==> Kin(s.attempts[a], t.attempts[a]);
    }
    forall a, i, no ensures HasNumber(t, a, i, no) == HasNumber(s, a, i, no) {
      assert a in s.attempts ==> Kin(s.attempts[a], t.attempts[a]);
    }
    forall a, i ensures IsLastAttempt(t, a, i) == IsLastAttempt(s, a, i) {
      assert a in s.attempts ==> Kin(s.attempts[a], t.attempts[a]);
      forall b | b in s.attempts ensures Kin(s.attempts[b], t.attempts[b]) {
      }
    }
  }

  lemma {:induction false} SamePrevious(s: State, t: State, x: Attempt)
    requires SameRows(s, t) && PreviousOk(s, x)
    ensures PreviousOk(t, x)
  {
    SameNumbers(s, t);
    if x.previous.Some? {
      assert Kin(s.attempts[x.previous.value], t.attempts[x.previous.value]);
    }
    if 1 < x.no {
      var b :| HasNumber(s, b, x.incidentId, x.no - 1);
      assert HasNumber(t, b, x.incidentId, x.no - 1);
    }
  }

  /** Rows stay in order when every changed attempt satisfies its own constraints. */
  lemma {:induction false} RowsKept(s: State, t: State)
    requires Rows(s) && SameRows(s, t)
    requires forall i :: i in t.incidents ==> IncidentOk(t, i)
    requires forall a :: a in t.attempts ==> Checks(t.attempts[a]) && CandidateOk(t, t.attempts[a])
    ensures Rows(t)
  {
    SameNumbers(s, t);
    forall a | a in t.attempts ensures RowOk(t, a) {
      assert RowOk(s, a) && Kin(s.attempts[a], t.attempts[a]);
      assert PreviousOk(s, t.attempts[a]);
      SamePrevious(s, t, t.attempts[a]);
    }
  }

  /** An unchanged candidate stays a child of its base. */
  lemma {:induction false} CandidateKept(s: State, t: State, a: Id, y: Attempt)
    requires Rows(s) && PlansMove(s.plans, t.plans) && a in s.attempts && Kin(s.attempts[a], y) && y.candidate == s.attempts[a].candidate
    ensures CandidateOk(t, y)
  {
    assert RowOk(s, a);
    if y.candidate.Some? {
      assert PlanMoves(s.plans[y.candidate.value], t.plans[y.candidate.value]) && PlanMoves(s.plans[y.base], t.plans[y.base]);
    }
  }

  lemma {:induction false} IncidentsKept(s: State, t: State)
    requires Rows(s) && t.incidents == s.incidents && PlansMove(s.plans, t.plans)
    ensures forall i :: i in t.incidents ==> IncidentOk(t, i)
  {
    forall i | i in t.incidents ensures IncidentOk(t, i) {
      assert IncidentOk(s, i);
    }
  }

  /** Rows stay in order when one attempt changes and satisfies its own constraints. */
  lemma {:induction false} RowsKeptExcept(s: State, t: State, a: Id, y: Attempt)
    requires Rows(s) && a in s.attempts && Kin(s.attempts[a], y) && Checks(y) && CandidateOk(t, y)
    requires t.incidents == s.incidents && t.attempts == s.attempts[a := y] && PlansMove(s.plans, t.plans)
    ensures Rows(t)
  {
    IncidentsKept(s, t);
    forall b | b in t.attempts ensures Checks(t.attempts[b]) && CandidateOk(t, t.attempts[b]) {
      if b != a { OtherRowKept(s, t, b); }
    }
    OneChangeKeepsRows(s, t, a, y);
    RowsKept(s, t);
  }

  lemma {:induction false} OneChangeKeepsRows(s: State, t: State, a: Id, y: Attempt)
    requires a in s.attempts && Kin(s.attempts[a], y)
    requires t.incidents == s.incidents && t.attempts == s.attempts[a := y] && PlansMove(s.plans, t.plans)
    ensures SameRows(s, t)
  {
  }

  lemma {:induction false} OtherRowKept(s: State, t: State, b: Id)
    requires Rows(s) && PlansMove(s.plans, t.plans) && b in s.attempts && b in t.attempts && t.attempts[b] == s.attempts[b]
    ensures Checks(t.attempts[b]) && CandidateOk(t, t.attempts[b])
  {
    assert RowOk(s, b);
    CandidateKept(s, t, b, t.attempts[b]);
  }

  // ----- steps that only touch plans -----

  /** No candidate appears or moves. */
  ghost predicate SameCandidates(x: map<Id, Plan>, y: map<Id, Plan>) {
    forall p :: (p in y && y[p].status == PlanCandidate) <==> (p in x && x[p].status == PlanCandidate)
  }

  lemma {:induction false} PlanStepKeepsInv(s: State, plans: map<Id, Plan>)
    requires Inv(s) && PlansOk(plans) && PlansMove(s.plans, plans) && SameCandidates(s.plans, plans)
    ensures Inv(s.(plans := plans))
  {
    var t := s.(plans := plans);
    forall i | i in t.incidents ensures IncidentOk(t, i) {
      assert IncidentOk(s, i);
    }
    forall a | a in t.attempts ensures Checks(t.attempts[a]) && CandidateOk(t, t.attempts[a]) {
      assert RowOk(s, a);
      CandidateKept(s, t, a, t.attempts[a]);
    }
    RowsKept(s, t);
    PlansOnlyStayPaired(s, t);
    SameAttemptsStayOrderly(s, t);
    ApprovalsKept(s, t);
  }

  lemma {:induction false} PlansOnlyStayPaired(s: State, t: State)
    requires s.attempts == t.attempts && Paired(s) && SameCandidates(s.plans, t.plans)
    ensures Paired(t)
  {
    assert forall a, p :: Carries(t, a, p) == Carries(s, a, p);
    forall a, i | Pending(t, a, i) ensures t.attempts[a].candidate.Some? && IsPlan(t, t.attempts[a].candidate.value, PlanCandidate) {
      assert Pending(s, a, i);
    }
    forall p | IsPlan(t, p, PlanCandidate) ensures exists a :: Carries(t, a, p) && t.attempts[a].status == PendingReview {
      assert IsPlan(s, p, PlanCandidate);
      var a :| Carries(s, a, p) && s.attempts[a].status == PendingReview;
      assert Carries(t, a, p);
    }
  }

  /** Superseded plans and resolved incidents stay so; no approval is added. */
  lemma {:induction false} ApprovalsKept(s: State, t: State)
    requires Rows(s) && ApprovedOnce(s) && PlansMove(s.plans, t.plans)
    requires forall a, i :: ApprovedIn(t, a, i) ==> ApprovedIn(s, a, i) && t.attempts[a].base == s.attempts[a].base
    requires forall i :: i in s.incidents && s.incidents[i].status == Resolved ==> i in t.incidents && t.incidents[i].status == Resolved
    requires forall a :: Past(t, a) ==> Past(s, a) && t.attempts[a].base == s.attempts[a].base
    ensures ApprovedOnce(t)
  {
    forall a | Past(t, a) ensures IsPlan(t, t.attempts[a].base, PlanSuperseded) {
      assert Past(s, a) && RowOk(s, a);
      assert PlanMoves(s.plans[s.attempts[a].base], t.plans[s.attempts[a].base]);
    }
    forall a, i | ApprovedIn(t, a, i) ensures IsPlan(t, t.attempts[a].base, PlanSuperseded) && i in t.incidents && t.incidents[i].status == Resolved {
      assert ApprovedIn(s, a, i) && RowOk(s, a);
      assert PlanMoves(s.plans[s.attempts[a].base], t.plans[s.attempts[a].base]);
    }
  }

  lemma {:induction false} SameAttemptsStayOrderly(s: State, t: State)
    requires s.attempts == t.attempts && t.workers.Keys <= s.workers.Keys && Orderly(s) && WorkersOk(s)
    requires forall a :: a in t.workers ==> t.workers[a] == s.workers[a]
    ensures Orderly(t) && WorkersOk(t)
  {
    forall a, i ensures Unsolved(t, a, i) == Unsolved(s, a, i) && Pending(t, a, i) == Pending(s, a, i) && IsLastAttempt(t, a, i) == IsLastAttempt(s, a, i) {
    }
    forall a, i | Unsolved(t, a, i) ensures AtTheEnd(t, a, i) {
      assert AtTheEnd(s, a, i);
    }
    forall a | a in t.workers ensures WorkerOk(t, a) {
      assert WorkerOk(s, a);
      assert Quiet(s, s.attempts[a].incidentId) ==> Quiet(t, s.attempts[a].incidentId);
    }
  }

  // ----- incidents and workers -----

  lemma {:induction false} IncidentStepKeepsRows(s: State, t: State, i: Id, status: IncidentStatus)
    requires Rows(s) && i in s.incidents && s.incidents[i].status != Resolved && status != Resolved
    requires t.plans == s.plans && t.attempts == s.attempts && t.incidents == s.incidents[i := s.incidents[i].(status := status)]
    ensures Rows(t)
  {
    forall j | j in t.incidents ensures IncidentOk(t, j) {
      assert IncidentOk(s, j);
    }
    SamePlansMove(s.plans);
    forall a | a in t.attempts ensures Checks(t.attempts[a]) && CandidateOk(t, t.attempts[a]) {
      assert RowOk(s, a);
      CandidateKept(s, t, a, t.attempts[a]);
    }
    RowsKept(s, t);
  }

  lemma {:induction false} IncidentStepKeepsInv(s: State, i: Id, status: IncidentStatus)
    requires Inv(s) && i in s.incidents && s.incidents[i].status != Resolved && status != Resolved
    ensures Inv(s.(incidents := s.incidents[i := s.incidents[i].(status := status)]))
  {
    var t := s.(incidents := s.incidents[i := s.incidents[i].(status := status)]);
    IncidentStepKeepsRows(s, t, i, status);
    SamePlansMove(s.plans);
    PlansOnlyStayPaired(s, t);
    SameAttemptsStayOrderly(s, t);
    ApprovalsKept(s, t);
  }

  lemma {:induction false} SamePlansMove(plans: map<Id, Plan>)
    ensures PlansMove(plans, plans)
  {
  }

  /** The same tables with fewer workers, whatever the facts of execution. */
  lemma {:induction false} TablesKeepInv(s: State, t: State)
    requires Inv(s) && t.plans == s.plans && t.incidents == s.incidents && t.attempts == s.attempts
    requires forall a :: a in t.workers ==> a in s.workers && t.workers[a] == s.workers[a]
    ensures Inv(t)
  {
    SamePlansMove(s.plans);
    forall b | b in t.attempts ensures Checks(t.attempts[b]) && CandidateOk(t, t.attempts[b]) {
      assert RowOk(s, b);
      CandidateKept(s, t, b, t.attempts[b]);
    }
    forall j | j in t.incidents ensures IncidentOk(t, j) {
      assert IncidentOk(s, j);
    }
    RowsKept(s, t);
    PlansOnlyStayPaired(s, t);
    SameAttemptsStayOrderly(s, t);
    ApprovalsKept(s, t);
  }

  lemma {:induction false} WorkerLeaves(s: State, a: Id)
    requires Inv(s)
    ensures Inv(s.(workers := s.workers - {a}))
  {
    TablesKeepInv(s, s.(workers := s.workers - {a}));
  }

  lemma {:induction false} FactsKeepInv(s: State, obstructed: set<(Id, Scope)>)
    requires Inv(s)
    ensures Inv(s.(obstructed := obstructed))
  {
    TablesKeepInv(s, s.(obstructed := obstructed));
  }

  lemma {:induction false} ReportKeepsRows(s: State, i: Id, p: Id, at: Instant, replan: bool)
    requires Rows(s) && CanReport(s, i, p)
    ensures Rows(Reported(s, i, p, at, replan))
  {
    var t := Reported(s, i, p, at, replan);
    forall j | j in t.incidents ensures IncidentOk(t, j) {
      if j != i { assert IncidentOk(s, j); }
    }
    forall a | a in t.attempts ensures RowOk(t, a) {
      assert RowOk(s, a);
      SameAttemptsSamePrevious(s, t, s.attempts[a]);
    }
    assert forall a, j, no :: HasNumber(t, a, j, no) ==> HasNumber(s, a, j, no);
  }

  lemma {:induction false} ReportKeepsInv(s: State, i: Id, p: Id, at: Instant, replan: bool)
    requires Inv(s) && CanReport(s, i, p)
    ensures Inv(Reported(s, i, p, at, replan))
  {
    var t := Reported(s, i, p, at, replan);
    ReportKeepsRows(s, i, p, at, replan);
    PlansOnlyStayPaired(s, t);
    SameAttemptsStayOrderly(s, t);
    SamePlansMove(s.plans);
    ApprovalsKept(s, t);
  }

  lemma {:induction false} SameAttemptsSamePrevious(s: State, t: State, x: Attempt)
    requires s.attempts == t.attempts && PreviousOk(s, x)
    ensures PreviousOk(t, x)
  {
    if 1 < x.no {
      var b :| HasNumber(s, b, x.incidentId, x.no - 1);
      assert HasNumber(t, b, x.incidentId, x.no - 1);
    }
  }

  // ----- a new attempt -----

  ghost predicate Beyond(s: State, i: Id, no: nat) {
    forall b :: Of(s, b, i) ==> s.attempts[b].no < no
  }

  ghost predicate Reserved(s: State, t: State, b: Id, x: Attempt, forOptions: bool) {
    && b !in s.attempts && x == NewAttempt(x.incidentId, x.no, x.previous, x.base, x.scope)
    && t.plans == s.plans && t.incidents == s.incidents
    && t.attempts == s.attempts[b := x] && t.workers == s.workers[b := Solving(forOptions)]
  }

  /** The next attempt of an open incident on which nothing is under way. */
  ghost predicate Fits(s: State, x: Attempt) {
    && x.incidentId in s.incidents && x.base == s.incidents[x.incidentId].planId && s.incidents[x.incidentId].status != Resolved
    && 0 < x.no && (x.no == 1 <==> x.previous == None) && PreviousOk(s, x)
    && Beyond(s, x.incidentId, x.no) && Quiet(s, x.incidentId)
  }

  lemma {:induction false} NewAttemptKeepsInv(s: State, t: State, b: Id, x: Attempt, forOptions: bool)
    requires Inv(s) && Reserved(s, t, b, x, forOptions) && Fits(s, x)
    ensures Inv(t)
  {
    NewAttemptKeepsTables(s, t, b, x, forOptions);
    ReservedStaysOrderly(s, t, b, x, forOptions);
  }

  lemma {:induction false} NewAttemptKeepsTables(s: State, t: State, b: Id, x: Attempt, forOptions: bool)
    requires Rows(s) && Paired(s) && ApprovedOnce(s) && Reserved(s, t, b, x, forOptions) && Fits(s, x)
    ensures Rows(t) && Paired(t) && ApprovedOnce(t)
  {
    SamePlansMove(s.plans);
    NewAttemptKeepsRows(s, t, b, x);
    NewAttemptStaysPaired(s, t, b, x);
    AddedKeepsApprovals(s, t, b, x);
  }

  lemma {:induction false} ReservedStaysOrderly(s: State, t: State, b: Id, x: Attempt, forOptions: bool)
    requires Orderly(s) && WorkersOk(s) && Reserved(s, t, b, x, forOptions) && Fits(s, x)
    ensures Orderly(t) && WorkersOk(t)
  {
    SamePlansMove(s.plans);
    NewAttemptStaysOrderly(s, t, b, x);
  }

  lemma {:induction false} AddedKeepsApprovals(s: State, t: State, b: Id, x: Attempt)
    requires Rows(s) && ApprovedOnce(s) && Added(s, t, b, x) && x.verdict == None
    requires x.incidentId in s.incidents && s.incidents[x.incidentId].status != Resolved
    ensures ApprovedOnce(t)
  {
    forall a, i | ApprovedIn(t, a, i) ensures ApprovedIn(s, a, i) && t.attempts[a].base == s.attempts[a].base {
    }
    ApprovalsKept(s, t);
  }

  ghost predicate Added(s: State, t: State, b: Id, x: Attempt) {
    b !in s.attempts && t.attempts == s.attempts[b := x] && t.incidents == s.incidents && PlansMove(s.plans, t.plans)
  }

  lemma {:induction false} NewAttemptKeepsRows(s: State, t: State, b: Id, x: Attempt)
    requires Rows(s) && Added(s, t, b, x) && Checks(x) && CandidateOk(t, x) && PreviousOk(s, x)
    requires x.incidentId in s.incidents && x.base == s.incidents[x.incidentId].planId && Beyond(s, x.incidentId, x.no)
    ensures Rows(t)
  {
    forall i | i in t.incidents ensures IncidentOk(t, i) {
      assert IncidentOk(s, i);
    }
    assert IncidentOk(s, x.incidentId);
    forall a | a in t.attempts ensures RowOk(t, a) {
      if a != b {
        assert RowOk(s, a);
        CandidateKept(s, t, a, t.attempts[a]);
        AddedKeepsPrevious(s, t, b, x, t.attempts[a]);
      } else {
        AddedKeepsPrevious(s, t, b, x, x);
      }
    }
    forall a, c, i, no | HasNumber(t, a, i, no) && HasNumber(t, c, i, no) ensures a == c {
      assert a != b ==> HasNumber(s, a, i, no);
      assert c != b ==> HasNumber(s, c, i, no);
    }
  }

  lemma {:induction false} AddedKeepsPrevious(s: State, t: State, b: Id, x: Attempt, y: Attempt)
    requires Added(s, t, b, x) && PreviousOk(s, y)
    ensures PreviousOk(t, y)
  {
    if 1 < y.no {
      var c :| HasNumber(s, c, y.incidentId, y.no - 1);
      assert HasNumber(t, c, y.incidentId, y.no - 1);
    }
  }

  lemma {:induction false} NewAttemptStaysPaired(s: State, t: State, b: Id, x: Attempt)
    requires Paired(s) && Added(s, t, b, x) && t.plans == s.plans && x.candidate == None && x.status == Draft
    ensures Paired(t)
  {
    assert forall a, p :: Carries(t, a, p) ==> Carries(s, a, p);
    forall a, i | Pending(t, a, i) ensures t.attempts[a].candidate.Some? && IsPlan(t, t.attempts[a].candidate.value, PlanCandidate) {
      assert Pending(s, a, i);
    }
    forall p | IsPlan(t, p, PlanCandidate) ensures exists a :: Carries(t, a, p) && t.attempts[a].status == PendingReview {
      assert IsPlan(s, p, PlanCandidate);
      var a :| Carries(s, a, p) && s.attempts[a].status == PendingReview;
      assert Carries(t, a, p);
    }
  }

  lemma {:induction false} NewAttemptStaysOrderly(s: State, t: State, b: Id, x: Attempt)
    requires Orderly(s) && WorkersOk(s) && Added(s, t, b, x) && Beyond(s, x.incidentId, x.no) && Quiet(s, x.incidentId)
    requires x.status == Draft && x.solver == None
    requires t.workers.Keys == s.workers.Keys + {b} && t.workers[b].Solving?
    requires forall a :: a in s.workers && a != b ==> t.workers[a] == s.workers[a]
    ensures Orderly(t) && WorkersOk(t)
  {
    forall a, i | a != b ensures Pending(t, a, i) == Pending(s, a, i) && Unsolved(t, a, i) == Unsolved(s, a, i) && Of(t, a, i) == Of(s, a, i) {
    }
    forall a, i | Unsolved(t, a, i) ensures AtTheEnd(t, a, i) {
      if a == b {
        forall c | c in t.attempts && t.attempts[c].incidentId == i ensures t.attempts[c].no <= x.no {
          assert c != b ==> Of(s, c, i);
        }
        forall c ensures !Pending(t, c, i) {
          assert !Pending(s, c, i);
        }
      } else {
        assert Unsolved(s, a, i) && AtTheEnd(s, a, i);
        assert i != x.incidentId;
      }
    }
    forall a, c, i | Pending(t, a, i) && Pending(t, c, i) && a != c ensures t.attempts[a].isOption {
      assert Pending(s, a, i) && Pending(s, c, i);
    }
    forall a | a in t.workers ensures WorkerOk(t, a) {
      if a != b { NewAttemptKeepsWorker(s, t, b, x, a); }
    }
  }

  lemma {:induction false} NewAttemptKeepsWorker(s: State, t: State, b: Id, x: Attempt, a: Id)
    requires Added(s, t, b, x) && Beyond(s, x.incidentId, x.no)
    requires a != b && a in s.workers && a in t.workers && t.workers[a] == s.workers[a] && WorkerOk(s, a)
    ensures WorkerOk(t, a)
  {
    var i := s.attempts[a].incidentId;
    assert Of(s, a, i);
    if i == x.incidentId {
      assert t.attempts[b].no > t.attempts[a].no;
    } else if s.workers[a] == Expanding && IsLastAttempt(t, a, i) {
      forall c | c in s.attempts && s.attempts[c].incidentId == i ensures s.attempts[c].no <= s.attempts[a].no {
        assert t.attempts[c] == s.attempts[c];
      }
      forall c ensures !Pending(t, c, i) && !Unsolved(t, c, i) {
        assert c != b ==> !Pending(s, c, i) && !Unsolved(s, c, i);
      }
    }
  }

  // ----- an outcome without a candidate -----

  lemma {:induction false} RecordKeepsInv(s: State, a: Id, y: Attempt, workers: map<Id, Worker>)
    requires Inv(s) && a in s.workers && s.workers[a].Solving?
    requires a in s.attempts && Kin(s.attempts[a], y) && Checks(y) && y.status == Draft && y.candidate == None && y.solver.Some?
    requires workers == s.workers - {a} || (workers == s.workers[a := Expanding] && y.solver == Some(OutcomeInfeasible))
    ensures Inv(s.(attempts := s.attempts[a := y], workers := workers))
  {
    var t := s.(attempts := s.attempts[a := y], workers := workers);
    assert WorkerOk(s, a) && RowOk(s, a);
    SamePlansMove(s.plans);
    RecordKeepsRows(s, t, a, y);
    RecordStaysPaired(s, t, a, y);
    RecordStaysOrderly(s, t, a, y);
    RecordKeepsApprovals(s, t, a, y);
  }

  lemma {:induction false} RecordKeepsApprovals(s: State, t: State, a: Id, y: Attempt)
    requires Rows(s) && ApprovedOnce(s) && a in s.attempts && Kin(s.attempts[a], y) && y.verdict == None
    requires t.plans == s.plans && t.incidents == s.incidents && t.attempts == s.attempts[a := y]
    ensures ApprovedOnce(t)
  {
    SamePlansMove(s.plans);
    forall b, i | ApprovedIn(t, b, i) ensures ApprovedIn(s, b, i) && t.attempts[b].base == s.attempts[b].base {
    }
    ApprovalsKept(s, t);
  }

  lemma {:induction false} RecordKeepsRows(s: State, t: State, a: Id, y: Attempt)
    requires Rows(s) && a in s.attempts && Kin(s.attempts[a], y) && Checks(y) && y.candidate == None
    requires t.plans == s.plans && t.incidents == s.incidents && t.attempts == s.attempts[a := y]
    ensures Rows(t)
  {
    SamePlansMove(s.plans);
    RowsKeptExcept(s, t, a, y);
  }

  lemma {:induction false} RecordStaysPaired(s: State, t: State, a: Id, y: Attempt)
    requires Paired(s) && a in s.attempts && s.attempts[a].candidate == None && y.candidate == None && y.status == Draft
    requires t.plans == s.plans && t.attempts == s.attempts[a := y]
    ensures Paired(t)
  {
    assert forall b, p :: Carries(t, b, p) == Carries(s, b, p);
    forall b, i | Pending(t, b, i) ensures t.attempts[b].candidate.Some? && IsPlan(t, t.attempts[b].candidate.value, PlanCandidate) {
      assert Pending(s, b, i);
    }
    forall p | IsPlan(t, p, PlanCandidate) ensures exists b :: Carries(t, b, p) && t.attempts[b].status == PendingReview {
      assert IsPlan(s, p, PlanCandidate);
      var b :| Carries(s, b, p) && s.attempts[b].status == PendingReview;
      assert Carries(t, b, p);
    }
  }

  /** One attempt changed, the others are what they were. */
  lemma {:induction false} OthersAreTheSame(s: State, t: State, a: Id, y: Attempt)
    requires a in s.attempts && Kin(s.attempts[a], y) && t.attempts == s.attempts[a := y]
    ensures forall b, j {:trigger Pending(t, b, j)} :: b != a ==> Pending(t, b, j) == Pending(s, b, j)
    ensures forall b, j {:trigger Unsolved(t, b, j)} :: b != a ==> Unsolved(t, b, j) == Unsolved(s, b, j)
    ensures forall b, j {:trigger IsLastAttempt(t, b, j)} :: IsLastAttempt(t, b, j) == IsLastAttempt(s, b, j)
  {
    forall b, j ensures IsLastAttempt(t, b, j) == IsLastAttempt(s, b, j) {
      LastIsTheSame(s, t, a, y, b, j);
    }
  }

  lemma {:induction false} LastIsTheSame(s: State, t: State, a: Id, y: Attempt, b: Id, j: Id)
    requires a in s.attempts && Kin(s.attempts[a], y) && t.attempts == s.attempts[a := y]
    ensures IsLastAttempt(t, b, j) == IsLastAttempt(s, b, j)
  {
    assert b in s.attempts ==> Kin(s.attempts[b], t.attempts[b]);
    if IsLastAttempt(t, b, j) {
      forall c | c in s.attempts && s.attempts[c].incidentId == j ensures s.attempts[c].no <= s.attempts[b].no {
        assert Kin(s.attempts[c], t.attempts[c]);
      }
    }
    if IsLastAttempt(s, b, j) {
      forall c | c in t.attempts && t.attempts[c].incidentId == j ensures t.attempts[c].no <= t.attempts[b].no {
        assert Kin(s.attempts[c], t.attempts[c]);
      }
    }
  }

  lemma {:induction false} OnlyOneUnsolved(s: State, a: Id, b: Id, i: Id)
    requires Rows(s) && Orderly(s) && Unsolved(s, a, i) && IsLastAttempt(s, b, i)
    ensures a == b
  {
    assert AtTheEnd(s, a, i);
    assert HasNumber(s, a, i, s.attempts[a].no) && HasNumber(s, b, i, s.attempts[a].no);
  }

  lemma {:induction false} SettledIsQuiet(s: State, t: State, a: Id, y: Attempt)
    requires Rows(s) && Orderly(s) && a in s.attempts && Kin(s.attempts[a], y) && t.attempts == s.attempts[a := y]
    requires Unsolved(s, a, y.incidentId) && y.status == Draft && y.solver.Some?
    ensures Quiet(t, y.incidentId)
  {
    var i := y.incidentId;
    assert AtTheEnd(s, a, i);
    OthersAreTheSame(s, t, a, y);
    forall b ensures !Pending(t, b, i) && !Unsolved(t, b, i) {
      if b != a && Unsolved(s, b, i) {
        assert AtTheEnd(s, b, i);
        OnlyOneUnsolved(s, a, b, i);
      }
      assert !Pending(s, b, i);
    }
  }

  lemma {:induction false} RecordStaysOrderly(s: State, t: State, a: Id, y: Attempt)
    requires Rows(s) && Orderly(s) && WorkersOk(s) && a in s.attempts && Kin(s.attempts[a], y) && y.status == Draft && y.solver.Some?
    requires Unsolved(s, a, s.attempts[a].incidentId)
    requires t.attempts == s.attempts[a := y]
    requires t.workers == s.workers - {a} || (t.workers == s.workers[a := Expanding] && y.solver == Some(OutcomeInfeasible))
    ensures Orderly(t) && WorkersOk(t)
  {
    OthersAreTheSame(s, t, a, y);
    SettledIsQuiet(s, t, a, y);
    forall b, j | Unsolved(t, b, j) ensures AtTheEnd(t, b, j) {
      assert Unsolved(s, b, j) && AtTheEnd(s, b, j);
      forall c ensures !Pending(t, c, j) {
        assert !Pending(s, c, j);
      }
    }
    forall b, c, j | Pending(t, b, j) && Pending(t, c, j) && b != c ensures t.attempts[b].isOption {
      assert Pending(s, b, j) && Pending(s, c, j);
    }
    forall b | b in t.workers ensures WorkerOk(t, b) {
      if b != a {
        RecordKeepsWorker(s, t, a, y, b);
      }
    }
  }

  lemma {:induction false} RecordKeepsWorker(s: State, t: State, a: Id, y: Attempt, b: Id)
    requires a in s.attempts && Kin(s.attempts[a], y) && t.attempts == s.attempts[a := y]
    requires y.status != PendingReview && (y.status == Draft ==> y.solver.Some?)
    requires b != a && b in s.workers && b in t.workers && s.workers[b] == t.workers[b] && WorkerOk(s, b)
    ensures WorkerOk(t, b)
  {
    OthersAreTheSame(s, t, a, y);
    var j := s.attempts[b].incidentId;
    if Quiet(s, j) {
      forall c ensures !Pending(t, c, j) && !Unsolved(t, c, j) {
        assert !Pending(s, c, j) && !Unsolved(s, c, j);
      }
    }
  }

  // ----- an outcome with a candidate -----

  /** A candidate plan for this base. */
  ghost predicate Child(plans: map<Id, Plan>, base: Id, plan: Plan) {
    base in plans && plan.status == PlanCandidate && plan.parent == Some(base) && plan.date == plans[base].date && plan.group == plans[base].group
  }

  ghost predicate OfferMade(s: State, t: State, a: Id, p: Id, plan: Plan, y: Attempt) {
    && p !in s.plans && Child(s.plans, y.base, plan) && t.plans == s.plans[p := plan]
    && t.attempts == s.attempts[a := y] && t.incidents == s.incidents && t.workers == s.workers && a !in s.workers
    && y.status == PendingReview && y.candidate == Some(p)
  }

  lemma {:induction false} OfferStaysPaired(s: State, t: State, a: Id, p: Id, plan: Plan, y: Attempt)
    requires Rows(s) && Paired(s) && OfferMade(s, t, a, p, plan, y) && (a in s.attempts ==> s.attempts[a].candidate == None)
    ensures Paired(t)
  {
    forall b, q ensures Carries(t, b, q) <==> if b == a then q == p else Carries(s, b, q) {
    }
    forall b, c, q | Carries(t, b, q) && Carries(t, c, q) ensures b == c {
      if b != a { assert RowOk(s, b) && CandidateOk(s, s.attempts[b]); }
      if c != a { assert RowOk(s, c) && CandidateOk(s, s.attempts[c]); }
    }
    forall b, i | Pending(t, b, i) ensures t.attempts[b].candidate.Some? && IsPlan(t, t.attempts[b].candidate.value, PlanCandidate) {
      if b != a { assert Pending(s, b, i); }
    }
    forall q | IsPlan(t, q, PlanCandidate) ensures exists b :: Carries(t, b, q) && t.attempts[b].status == PendingReview {
      if q == p {
        assert Carries(t, a, p);
      } else {
        assert IsPlan(s, q, PlanCandidate);
        var b :| Carries(s, b, q) && s.attempts[b].status == PendingReview;
        assert b != a;
        assert Carries(t, b, q);
      }
    }
  }

  lemma {:induction false} NewPlanMoves(plans: map<Id, Plan>, p: Id, plan: Plan)
    requires p !in plans
    ensures PlansMove(plans, plans[p := plan])
  {
  }

  /** The reserved attempt gets its candidate. */
  lemma {:induction false} OfferKeepsInv(s: State, t: State, a: Id, p: Id, plan: Plan, y: Attempt)
    requires Inv(s) && OfferMade(s, t, a, p, plan, y) && PlansOk(t.plans)
    requires a in s.attempts && Kin(s.attempts[a], y) && Checks(y) && Unsolved(s, a, y.incidentId)
    requires y.incidentId in s.incidents && s.incidents[y.incidentId].status != Resolved
    ensures Inv(t)
  {
    assert RowOk(s, a);
    OfferKeepsRows(s, t, a, p, plan, y);
    OfferStaysPaired(s, t, a, p, plan, y);
    OfferStaysOrderly(s, t, a, y);
    OfferKeepsApprovals(s, t, a, p, plan, y);
  }

  lemma {:induction false} OfferKeepsApprovals(s: State, t: State, a: Id, p: Id, plan: Plan, y: Attempt)
    requires Rows(s) && ApprovedOnce(s) && OfferMade(s, t, a, p, plan, y) && y.verdict == None
    requires y.incidentId in s.incidents && s.incidents[y.incidentId].status != Resolved
    ensures ApprovedOnce(t)
  {
    NewPlanMoves(s.plans, p, plan);
    forall b, i | ApprovedIn(t, b, i) ensures ApprovedIn(s, b, i) && t.attempts[b].base == s.attempts[b].base {
    }
    ApprovalsKept(s, t);
  }

  lemma {:induction false} OfferKeepsRows(s: State, t: State, a: Id, p: Id, plan: Plan, y: Attempt)
    requires Rows(s) && OfferMade(s, t, a, p, plan, y) && a in s.attempts && Kin(s.attempts[a], y) && Checks(y)
    ensures Rows(t)
  {
    NewPlanMoves(s.plans, p, plan);
    RowsKeptExcept(s, t, a, y);
  }

  lemma {:induction false} OfferStaysOrderly(s: State, t: State, a: Id, y: Attempt)
    requires Rows(s) && Orderly(s) && WorkersOk(s) && a in s.attempts && a !in s.workers && Kin(s.attempts[a], y) && y.status == PendingReview
    requires Unsolved(s, a, y.incidentId) && t.attempts == s.attempts[a := y] && t.workers == s.workers
    ensures Orderly(t) && WorkersOk(t)
  {
    var i := y.incidentId;
    assert AtTheEnd(s, a, i);
    OthersAreTheSame(s, t, a, y);
    forall b, j | Unsolved(t, b, j) ensures AtTheEnd(t, b, j) {
      assert Unsolved(s, b, j) && AtTheEnd(s, b, j);
      if j == i { OnlyOneUnsolved(s, a, b, i); }
      forall c ensures !Pending(t, c, j) {
        assert !Pending(s, c, j);
      }
    }
    forall b, c, j | Pending(t, b, j) && Pending(t, c, j) && b != c ensures t.attempts[b].isOption {
      assert !Pending(s, b, i) && !Pending(s, c, i);
      assert Pending(s, b, j) && Pending(s, c, j);
    }
    forall b | b in t.workers ensures WorkerOk(t, b) {
      OfferKeepsWorker(s, t, a, y, b);
    }
  }

  lemma {:induction false} OfferKeepsWorker(s: State, t: State, a: Id, y: Attempt, b: Id)
    requires Rows(s) && Orderly(s) && a in s.attempts && Kin(s.attempts[a], y) && t.attempts == s.attempts[a := y]
    requires Unsolved(s, a, y.incidentId) && y.status == PendingReview
    requires b != a && b in s.workers && t.workers == s.workers && WorkerOk(s, b)
    ensures WorkerOk(t, b)
  {
    OthersAreTheSame(s, t, a, y);
    var j := s.attempts[b].incidentId;
    if IsLastAttempt(t, b, j) && j == y.incidentId { OnlyOneUnsolved(s, a, b, j); }
    if Quiet(s, j) && j != y.incidentId {
      forall c ensures !Pending(t, c, j) && !Unsolved(t, c, j) {
        assert !Pending(s, c, j) && !Unsolved(s, c, j);
      }
    }
  }

  // ----- closing attempts under review -----

  ghost predicate AllPending(s: State, i: Id, closing: set<Id>) {
    forall a :: a in closing ==> Pending(s, a, i)
  }

  /** A set of attempts under review leaves review, their candidates are cancelled. */
  ghost predicate Retired(s: State, t: State, i: Id, closing: set<Id>) {
    && AllPending(s, i, closing) && t.incidents == s.incidents && t.workers == s.workers
    && t.plans == CancelledPlans(s.plans, s.attempts, closing)
    && t.attempts.Keys == s.attempts.Keys
    && (forall a :: a in s.attempts && a !in closing ==> t.attempts[a] == s.attempts[a])
    && (forall a :: a in closing ==> RetiredRow(s.attempts[a], t.attempts[a]))
  }

  ghost predicate RetiredRow(x: Attempt, y: Attempt) {
    && Kin(x, y) && y.candidate == x.candidate && y.solver == x.solver && y.status != PendingReview && Checks(y)
    && !(y.verdict.Some? && y.verdict.value.decision == Approve)
  }

  /** Exactly the candidates of the retired attempts are cancelled. */
  lemma {:induction false} RetiredPlans(s: State, t: State, i: Id, closing: set<Id>)
    requires Paired(s) && Retired(s, t, i, closing)
    ensures t.plans.Keys == s.plans.Keys && PlansMove(s.plans, t.plans)
    ensures forall p {:trigger IsPlan(t, p, PlanCandidate)} :: IsPlan(t, p, PlanCandidate) <==>
              IsPlan(s, p, PlanCandidate) && forall a :: a in closing ==> !Carries(s, a, p)
  {
    forall p | p in s.plans ensures PlanMoves(s.plans[p], t.plans[p]) {
      if a :| a in closing && a in s.attempts && s.attempts[a].candidate == Some(p) {
        assert Pending(s, a, i);
      }
    }
  }

  lemma {:induction false} RetiredPlansOk(s: State, t: State, i: Id, closing: set<Id>)
    requires PlansOk(s.plans) && Paired(s) && Retired(s, t, i, closing)
    ensures PlansOk(t.plans)
  {
    RetiredPlans(s, t, i, closing);
    forall p, q | SameDate(t.plans, p, q) && t.plans[p].status == PlanCurrent && t.plans[q].status == PlanCurrent ensures p == q {
      assert SameDate(s.plans, p, q) && Compatible(s.plans, p, q);
    }
    MovesKeepPlansOk(s.plans, t.plans);
  }

  lemma {:induction false} RetiredKin(s: State, t: State, i: Id, closing: set<Id>, a: Id)
    requires Retired(s, t, i, closing) && a in s.attempts
    ensures Kin(s.attempts[a], t.attempts[a]) && t.attempts[a].candidate == s.attempts[a].candidate
  {
  }

  lemma {:induction false} RetiredRows(s: State, t: State, i: Id, closing: set<Id>)
    requires Rows(s) && Paired(s) && Retired(s, t, i, closing)
    ensures Rows(t)
  {
    RetiredPlans(s, t, i, closing);
    IncidentsKept(s, t);
    forall a | a in t.attempts ensures Kin(s.attempts[a], t.attempts[a]) && Checks(t.attempts[a]) && CandidateOk(t, t.attempts[a]) {
      RetiredKin(s, t, i, closing, a);
      assert RowOk(s, a);
      CandidateKept(s, t, a, t.attempts[a]);
    }
    RowsKept(s, t);
  }

  lemma {:induction false} RetiredPaired(s: State, t: State, i: Id, closing: set<Id>)
    requires Paired(s) && Retired(s, t, i, closing)
    ensures Paired(t)
  {
    RetiredPlans(s, t, i, closing);
    forall a, p ensures Carries(t, a, p) == Carries(s, a, p) {
      if a in s.attempts { RetiredKin(s, t, i, closing, a); }
    }
    forall a, j | Pending(t, a, j) ensures t.attempts[a].candidate.Some? && IsPlan(t, t.attempts[a].candidate.value, PlanCandidate) {
      assert a !in closing && Pending(s, a, j);
      var p := s.attempts[a].candidate.value;
      assert Carries(s, a, p);
    }
    forall p | IsPlan(t, p, PlanCandidate) ensures exists a :: Carries(t, a, p) && t.attempts[a].status == PendingReview {
      var a :| Carries(s, a, p) && s.attempts[a].status == PendingReview;
      assert a !in closing;
      assert Carries(t, a, p);
    }
  }

  lemma {:induction false} RetiredViews(s: State, t: State, i: Id, closing: set<Id>)
    requires Rows(s) && Retired(s, t, i, closing)
    ensures forall a, j {:trigger Pending(t, a, j)} :: Pending(t, a, j) <==> Pending(s, a, j) && a !in closing
    ensures forall a, j {:trigger Unsolved(t, a, j)} :: Unsolved(t, a, j) == Unsolved(s, a, j)
  {
    forall a, j ensures Pending(t, a, j) <==> Pending(s, a, j) && a !in closing {
      if a in s.attempts { RetiredKin(s, t, i, closing, a); }
    }
    forall a, j ensures Unsolved(t, a, j) == Unsolved(s, a, j) {
      if a in closing {
        assert Pending(s, a, i) && RowOk(s, a);
        RetiredKin(s, t, i, closing, a);
      }
    }
  }

  lemma {:induction false} RetiredOrderly(s: State, t: State, i: Id, closing: set<Id>)
    requires Rows(s) && Paired(s) && Orderly(s) && WorkersOk(s) && Retired(s, t, i, closing)
    ensures Orderly(t) && WorkersOk(t)
  {
    RetiredPlans(s, t, i, closing);
    RetiredViews(s, t, i, closing);
    forall a | a in s.attempts ensures Kin(s.attempts[a], t.attempts[a]) {
      RetiredKin(s, t, i, closing, a);
    }
    SameNumbers(s, t);
    forall a, j | Unsolved(t, a, j) ensures AtTheEnd(t, a, j) {
      assert AtTheEnd(s, a, j);
      forall b ensures !Pending(t, b, j) {
        assert !Pending(s, b, j);
      }
    }
    forall a, b, j | Pending(t, a, j) && Pending(t, b, j) && a != b ensures t.attempts[a].isOption {
      assert Pending(s, a, j) && Pending(s, b, j);
    }
    forall a | a in t.workers ensures WorkerOk(t, a) {
      RetiredWorker(s, t, i, closing, a);
    }
  }

  lemma {:induction false} RetiredWorker(s: State, t: State, i: Id, closing: set<Id>, a: Id)
    requires Rows(s) && Paired(s) && Retired(s, t, i, closing) && a in s.workers && WorkerOk(s, a)
    ensures WorkerOk(t, a)
  {
    RetiredPlans(s, t, i, closing);
    RetiredViews(s, t, i, closing);
    forall b | b in s.attempts ensures Kin(s.attempts[b], t.attempts[b]) {
      RetiredKin(s, t, i, closing, b);
    }
    SameNumbers(s, t);
    var j := s.attempts[a].incidentId;
    assert a !in closing;
    if Quiet(s, j) {
      forall b ensures !Pending(t, b, j) && !Unsolved(t, b, j) {
        assert !Pending(s, b, j) && !Unsolved(s, b, j);
      }
    }
  }

  lemma {:induction false} RetiredApprovals(s: State, t: State, i: Id, closing: set<Id>)
    requires Rows(s) && Paired(s) && ApprovedOnce(s) && Retired(s, t, i, closing)
    ensures ApprovedOnce(t)
  {
    RetiredPlans(s, t, i, closing);
    forall a, j | ApprovedIn(t, a, j) ensures ApprovedIn(s, a, j) && t.attempts[a].base == s.attempts[a].base {
      RetiredKin(s, t, i, closing, a);
    }
    forall a | Past(t, a) ensures Past(s, a) && t.attempts[a].base == s.attempts[a].base {
      RetiredKin(s, t, i, closing, a);
    }
    ApprovalsKept(s, t);
  }

  lemma {:induction false} RetireKeepsInv(s: State, t: State, i: Id, closing: set<Id>)
    requires Inv(s) && Retired(s, t, i, closing)
    ensures Inv(t)
  {
    RetiredPlansOk(s, t, i, closing);
    RetiredRows(s, t, i, closing);
    RetiredPaired(s, t, i, closing);
    RetiredOrderly(s, t, i, closing);
    RetiredApprovals(s, t, i, closing);
  }

  // ----- a further option -----

  /** A new attempt comes with its candidate. */
  lemma {:induction false} FurtherOfferKeepsInv(s: State, t: State, a: Id, p: Id, plan: Plan, y: Attempt)
    requires Inv(s) && OfferMade(s, t, a, p, plan, y) && PlansOk(t.plans)
    requires a !in s.attempts && Checks(y) && PreviousOk(s, y) && Beyond(s, y.incidentId, y.no)
    requires y.incidentId in s.incidents && s.incidents[y.incidentId].status != Resolved && y.base == s.incidents[y.incidentId].planId
    requires y.isOption && forall b :: !Unsolved(s, b, y.incidentId) && (Pending(s, b, y.incidentId) ==> s.attempts[b].isOption)
    ensures Inv(t)
  {
    NewPlanMoves(s.plans, p, plan);
    assert Added(s, t, a, y);
    NewAttemptKeepsRows(s, t, a, y);
    OfferStaysPaired(s, t, a, p, plan, y);
    FurtherOfferStaysOrderly(s, t, a, y);
    OfferKeepsApprovals(s, t, a, p, plan, y);
  }

  lemma {:induction false} FurtherOfferStaysOrderly(s: State, t: State, a: Id, y: Attempt)
    requires Orderly(s) && WorkersOk(s) && Added(s, t, a, y) && Beyond(s, y.incidentId, y.no) && t.workers == s.workers
    requires y.status == PendingReview && y.isOption
    requires forall b :: !Unsolved(s, b, y.incidentId) && (Pending(s, b, y.incidentId) ==> s.attempts[b].isOption)
    ensures Orderly(t) && WorkersOk(t)
  {
    var i := y.incidentId;
    forall b, j | Unsolved(t, b, j) ensures AtTheEnd(t, b, j) {
      assert Unsolved(s, b, j) && AtTheEnd(s, b, j) && j != i;
      forall c ensures !Pending(t, c, j) {
        assert !Pending(s, c, j);
      }
    }
    forall b, c, j | Pending(t, b, j) && Pending(t, c, j) && b != c ensures t.attempts[b].isOption {
      if b != a && c != a {
        assert Pending(s, b, j) && Pending(s, c, j);
      } else if b != a {
        assert Pending(s, b, i);
      }
    }
    forall b | b in t.workers ensures WorkerOk(t, b) {
      assert WorkerOk(s, b);
      NewAttemptKeepsWorker(s, t, a, y, b);
    }
  }

  // ----- approval -----

  /** One attempt is approved; its siblings are not looked at yet. */
  ghost predicate ApprovedBy(s: State, t: State, a: Id, v: Verdict) {
    Reviewable(s, a) && v.decision == Approve && t == ApprovedOne(s, a, v) && s.attempts[a].candidate != Some(s.attempts[a].base)
  }

  lemma {:induction false} ApprovalKeepsPlans(s: State, t: State, a: Id, v: Verdict)
    requires PlansOk(s.plans) && Reviewable(s, a) && ApprovedBy(s, t, a, v)
    ensures PlansOk(t.plans) && PlansMove(s.plans, t.plans) && t.plans.Keys == s.plans.Keys
  {
    var x := s.attempts[a];
    assert SameDate(s.plans, x.base, x.candidate.value) && x.base != x.candidate.value;
    forall p, q | SameDate(t.plans, p, q) && t.plans[p].status == PlanCurrent && t.plans[q].status == PlanCurrent ensures p == q {
      assert SameDate(s.plans, p, x.base) ==> Compatible(s.plans, p, x.base);
      assert SameDate(s.plans, q, x.base) ==> Compatible(s.plans, q, x.base);
      assert SameDate(s.plans, p, q) && Compatible(s.plans, p, q);
    }
    MovesKeepPlansOk(s.plans, t.plans);
  }

  lemma {:induction false} ApprovalKeepsRows(s: State, t: State, a: Id, v: Verdict)
    requires PlansOk(s.plans) && Rows(s) && Reviewable(s, a) && ApprovedBy(s, t, a, v)
    requires s.incidents[s.attempts[a].incidentId].detectedAt <= v.at
    ensures Rows(t)
  {
    ApprovalKeepsPlans(s, t, a, v);
    ApprovalKeepsIncidents(s, t, a, v);
    forall b | b in t.attempts ensures Checks(t.attempts[b]) && CandidateOk(t, t.attempts[b]) {
      ApprovalKeepsRow(s, t, a, v, b);
    }
    ApprovalSameRows(s, t, a, v);
    RowsKept(s, t);
  }

  lemma {:induction false} ApprovalKeepsIncidents(s: State, t: State, a: Id, v: Verdict)
    requires Rows(s) && ApprovedBy(s, t, a, v) && PlansMove(s.plans, t.plans)
    requires s.incidents[s.attempts[a].incidentId].detectedAt <= v.at
    ensures forall i :: i in t.incidents ==> IncidentOk(t, i)
  {
    forall i | i in t.incidents ensures IncidentOk(t, i) {
      assert IncidentOk(s, i);
    }
  }

  lemma {:induction false} ApprovalSameRows(s: State, t: State, a: Id, v: Verdict)
    requires ApprovedBy(s, t, a, v) && PlansMove(s.plans, t.plans)
    ensures SameRows(s, t)
  {
  }

  lemma {:induction false} ApprovalKeepsRow(s: State, t: State, a: Id, v: Verdict, b: Id)
    requires Rows(s) && Reviewable(s, a) && ApprovedBy(s, t, a, v) && PlansMove(s.plans, t.plans) && b in s.attempts
    ensures Kin(s.attempts[b], t.attempts[b]) && Checks(t.attempts[b]) && CandidateOk(t, t.attempts[b])
  {
    assert RowOk(s, b);
    CandidateKept(s, t, b, t.attempts[b]);
  }

  lemma {:induction false} ApprovalStaysPaired(s: State, t: State, a: Id, v: Verdict)
    requires Paired(s) && Reviewable(s, a) && ApprovedBy(s, t, a, v)
    ensures Paired(t)
  {
    var x := s.attempts[a];
    assert Carries(s, a, x.candidate.value);
    forall b, p ensures Carries(t, b, p) == Carries(s, b, p) {
    }
    forall b, i | Pending(t, b, i) ensures t.attempts[b].candidate.Some? && IsPlan(t, t.attempts[b].candidate.value, PlanCandidate) {
      assert b != a && Pending(s, b, i);
      assert Carries(s, b, s.attempts[b].candidate.value);
    }
    forall p | IsPlan(t, p, PlanCandidate) ensures exists b :: Carries(t, b, p) && t.attempts[b].status == PendingReview {
      assert IsPlan(s, p, PlanCandidate) && p != x.candidate.value;
      var b :| Carries(s, b, p) && s.attempts[b].status == PendingReview;
      assert Carries(t, b, p);
    }
  }

  lemma {:induction false} ApprovalStaysOrderly(s: State, t: State, a: Id, v: Verdict)
    requires Rows(s) && Orderly(s) && WorkersOk(s) && Reviewable(s, a) && ApprovedBy(s, t, a, v)
    ensures Orderly(t) && WorkersOk(t)
  {
    var y := WithVerdict(s.attempts[a], v);
    OthersAreTheSame(s, t, a, y);
    forall b, j | Unsolved(t, b, j) ensures AtTheEnd(t, b, j) {
      assert Unsolved(s, b, j) && AtTheEnd(s, b, j);
      forall c ensures !Pending(t, c, j) {
        assert !Pending(s, c, j);
      }
    }
    forall b, c, j | Pending(t, b, j) && Pending(t, c, j) && b != c ensures t.attempts[b].isOption {
      assert Pending(s, b, j) && Pending(s, c, j);
    }
    forall b | b in t.workers ensures WorkerOk(t, b) {
      assert WorkerOk(s, b) && b != a;
      assert RowOk(s, a);
      RecordKeepsWorker(s, t, a, y, b);
    }
  }

  /** The base of any attempt of the incident is the plan just superseded. */
  lemma {:induction false} ApprovalSupersedes(s: State, t: State, a: Id, v: Verdict, b: Id)
    requires Rows(s) && Reviewable(s, a) && ApprovedBy(s, t, a, v) && PlansMove(s.plans, t.plans) && b in s.attempts
    requires s.attempts[b].incidentId == s.attempts[a].incidentId || IsPlan(s, s.attempts[b].base, PlanSuperseded)
    ensures IsPlan(t, s.attempts[b].base, PlanSuperseded)
    ensures s.attempts[b].incidentId == s.attempts[a].incidentId ==> IsPlan(s, s.attempts[b].base, PlanCurrent)
  {
    assert RowOk(s, b) && RowOk(s, a);
    assert PlanMoves(s.plans[s.attempts[b].base], t.plans[s.attempts[b].base]);
  }

  lemma {:induction false} ApprovedElsewhere(s: State, t: State, a: Id, v: Verdict, b: Id, i: Id)
    requires Rows(s) && ApprovedOnce(s) && Reviewable(s, a) && ApprovedBy(s, t, a, v) && PlansMove(s.plans, t.plans)
    requires ApprovedIn(t, b, i)
    ensures b == a || (ApprovedIn(s, b, i) && i != s.attempts[a].incidentId)
  {
    if b != a {
      assert ApprovedIn(s, b, i);
      ApprovalSupersedes(s, t, a, v, b);
    }
  }

  lemma {:induction false} ApprovedIsHistory(s: State, t: State, a: Id, v: Verdict)
    requires Rows(s) && ApprovedOnce(s) && Reviewable(s, a) && ApprovedBy(s, t, a, v) && PlansMove(s.plans, t.plans)
    ensures forall b, i :: ApprovedIn(t, b, i) ==> b == a || (ApprovedIn(s, b, i) && i != s.attempts[a].incidentId)
    ensures forall b, i :: ApprovedIn(t, b, i) ==>
              IsPlan(t, t.attempts[b].base, PlanSuperseded) && i in t.incidents && t.incidents[i].status == Resolved
  {
    forall b, i | ApprovedIn(t, b, i)
      ensures b == a || (ApprovedIn(s, b, i) && i != s.attempts[a].incidentId)
      ensures IsPlan(t, t.attempts[b].base, PlanSuperseded) && i in t.incidents && t.incidents[i].status == Resolved
    {
      ApprovedElsewhere(s, t, a, v, b, i);
      ApprovalSupersedes(s, t, a, v, b);
    }
  }

  lemma {:induction false} ApprovalIsTheOnlyOne(s: State, t: State, a: Id, v: Verdict)
    requires PlansOk(s.plans) && Rows(s) && ApprovedOnce(s) && Reviewable(s, a) && ApprovedBy(s, t, a, v)
    ensures ApprovedOnce(t)
  {
    ApprovalKeepsPlans(s, t, a, v);
    var x := s.attempts[a];
    ApprovedIsHistory(s, t, a, v);
    forall b | Past(t, b) ensures IsPlan(t, t.attempts[b].base, PlanSuperseded) {
      assert s.attempts[b].incidentId != x.incidentId ==> Past(s, b);
      ApprovalSupersedes(s, t, a, v, b);
    }
  }

  lemma {:induction false} ApprovalKeepsInv(s: State, t: State, a: Id, v: Verdict)
    requires Inv(s) && Reviewable(s, a) && ApprovedBy(s, t, a, v)
    requires s.incidents[s.attempts[a].incidentId].detectedAt <= v.at
    ensures Inv(t)
  {
    ApprovalKeepsPlans(s, t, a, v);
    ApprovalKeepsRows(s, t, a, v);
    ApprovalStaysPaired(s, t, a, v);
    ApprovalStaysOrderly(s, t, a, v);
    ApprovalIsTheOnlyOne(s, t, a, v);
  }
}

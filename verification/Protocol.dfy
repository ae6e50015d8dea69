/** The transactions of planning, recovery and review over plans, incidents and recovery
    attempts.  Each is one atomic step; routing, solving and explaining happen between steps. */
module Protocol {
  import opened Ordering
  import opened Domain

  type Date = int

  /** A row of delivery_plans, as far as the protocol goes.  Whether the snapshot of a candidate agrees
      with itself is settled when it is stored: nobody executes or edits a candidate. */
  datatype Plan = Plan(
    date: Date,
    group: Id,
    version: nat,
    parent: Option<Id>,
    status: PlanStatus,
    activatedAt: Option<Instant>,
    supersededAt: Option<Instant>,
    consistent: bool)

  datatype IncidentStatus = Detected | Assessing | Replanning | Review | Resolved
  datatype Incident = Incident(planId: Id, detectedAt: Instant, status: IncidentStatus, resolvedAt: Option<Instant>)

  datatype Scope = AffectedRoute | CrossRoute | AllRemaining
  datatype AttemptStatus = Draft | PendingReview | Decided
  datatype SolverOutcome = OutcomeFeasible | OutcomeInfeasible | OutcomeError
  datatype Validation = Valid | Invalid
  datatype Decision = Approve | Reject | Modify

  /** decision, dispatcher, time and reason, which are always set together. */
  datatype Verdict = Verdict(decision: Decision, who: Id, at: Instant)

  /** A row of recovery_plans. */
  datatype Attempt = Attempt(
    incidentId: Id,
    no: nat,
    previous: Option<Id>,
    base: Id,
    scope: Scope,
    status: AttemptStatus,
    solver: Option<SolverOutcome>,
    validation: Option<Validation>,
    candidate: Option<Id>,
    explained: bool,
    verdict: Option<Verdict>,
    isOption: bool)

  /** A worker owns an attempt from the step that reserves it to the step that settles it. */
  datatype Worker = Solving(forOptions: bool) | Expanding

  /** `obstructed` tells for which incidents and scopes some target order has an obstacle, as
      `materialize_recovery_context` finds it in the tables of execution. */
  datatype State = State(
    plans: map<Id, Plan>,
    incidents: map<Id, Incident>,
    attempts: map<Id, Attempt>,
    workers: map<Id, Worker>,
    obstructed: set<(Id, Scope)>)

  const SYSTEM: Id := 0

  /** `next_replanning_scope`. */
  function NextScope(s: Scope): Option<Scope> {
    match s case AffectedRoute => Some(CrossRoute) case CrossRoute => Some(AllRemaining) case AllRemaining => None
  }

  // ----- queries -----

  predicate IsPlan(s: State, p: Id, status: PlanStatus) {
    p in s.plans && s.plans[p].status == status
  }

  predicate OnDate(s: State, p: Id, date: Date) {
    p in s.plans && s.plans[p].date == date
  }

  /** `get_current_plan`. */
  predicate HasCurrent(s: State, date: Date) {
    exists p :: p in s.plans && s.plans[p].date == date && s.plans[p].status == PlanCurrent
  }

  /** `get_latest_plan_for_business_date`. */
  predicate IsLatest(s: State, date: Date, latest: Option<Id>) {
    match latest
    case None => forall p :: p in s.plans ==> s.plans[p].date != date
    case Some(q) => OnDate(s, q, date) && forall p :: p in s.plans && s.plans[p].date == date ==> s.plans[p].version <= s.plans[q].version
  }

  predicate Of(s: State, a: Id, i: Id) {
    a in s.attempts && s.attempts[a].incidentId == i
  }

  predicate Pending(s: State, a: Id, i: Id) {
    Of(s, a, i) && s.attempts[a].status == PendingReview
  }

  /** Reserved, and no outcome recorded yet. */
  predicate Unsolved(s: State, a: Id, i: Id) {
    Of(s, a, i) && s.attempts[a].status == Draft && s.attempts[a].solver == None
  }

  /** The attempt with the highest number, `attempts[-1]`. */
  predicate IsLastAttempt(s: State, a: Id, i: Id) {
    Of(s, a, i) && forall b :: b in s.attempts && s.attempts[b].incidentId == i ==> s.attempts[b].no <= s.attempts[a].no
  }

  predicate NumberFree(s: State, i: Id, no: nat) {
    forall b :: b in s.attempts && s.attempts[b].incidentId == i ==> s.attempts[b].no != no
  }

  /** What `materialize_recovery_context` and `_assert_base_still_current` ask of the incident. */
  predicate BaseIsCurrent(s: State, i: Id) {
    i in s.incidents && s.incidents[i].status != Resolved && IsPlan(s, s.incidents[i].planId, PlanCurrent)
  }

  /** `materialize_recovery_context` succeeds. */
  predicate Materializes(s: State, i: Id, scope: Scope) {
    BaseIsCurrent(s, i) && (i, scope) !in s.obstructed
  }

  /** The scopes of an options run that starts with `scope`. */
  predicate AtLeast(scope: Scope, wider: Scope) {
    || wider == scope
    || NextScope(scope) == Some(wider)
    || (NextScope(scope).Some? && NextScope(NextScope(scope).value) == Some(wider))
  }

  function NewAttempt(i: Id, no: nat, previous: Option<Id>, base: Id, scope: Scope): Attempt {
    Attempt(i, no, previous, base, scope, Draft, None, None, None, false, None, false)
  }

  function PlanAfter(s: State, date: Date, latest: Option<Id>, group: Id, parent: Option<Id>, status: PlanStatus, at: Option<Instant>): Plan
    requires latest.Some? ==> latest.value in s.plans
  {
    Plan(date, group, if latest.Some? then s.plans[latest.value].version + 1 else 1, parent, status, at, None, true)
  }

  // ----- normal planning -----

  predicate CanGenerate(s: State, date: Date, latest: Option<Id>, p: Id) {
    p !in s.plans && !HasCurrent(s, date) && IsLatest(s, date, latest)
  }

  /** `_generate`: a new draft cancels a latest draft; a plan generated directly is current. */
  function Generated(s: State, date: Date, latest: Option<Id>, p: Id, newGroup: Id, draft: bool, now: Instant): State
    requires CanGenerate(s, date, latest, p)
  {
    var group := if latest.Some? then s.plans[latest.value].group else newGroup;
    var plan := PlanAfter(s, date, latest, group, latest, if draft then PlanDraft else PlanCurrent, if draft then None else Some(now));
    var plans := if draft && latest.Some? && s.plans[latest.value].status == PlanDraft
                 then s.plans[latest.value := s.plans[latest.value].(status := PlanCancelled)] else s.plans;
    s.(plans := plans[p := plan])
  }

  predicate CanConfirm(s: State, p: Id) {
    IsPlan(s, p, PlanDraft) && IsLatest(s, s.plans[p].date, Some(p)) && !HasCurrent(s, s.plans[p].date)
  }

  /** `confirm_draft`. */
  function Confirmed(s: State, p: Id, now: Instant): State
    requires CanConfirm(s, p)
  {
    s.(plans := s.plans[p := s.plans[p].(status := PlanCurrent, activatedAt := Some(now))])
  }

  // ----- recovery attempts -----

  predicate CanReport(s: State, i: Id, p: Id) {
    i !in s.incidents && IsPlan(s, p, PlanCurrent)
  }

  /** An incident without any order to replan is resolved as soon as it is reported. */
  function Reported(s: State, i: Id, p: Id, detectedAt: Instant, replan: bool): State {
    s.(incidents := s.incidents[i := if replan then Incident(p, detectedAt, Replanning, None)
                                     else Incident(p, detectedAt, Resolved, Some(detectedAt))])
  }

  predicate CanStart(s: State, i: Id, a: Id) {
    a !in s.attempts && Materializes(s, i, AffectedRoute) && forall b :: b in s.attempts ==> s.attempts[b].incidentId != i
  }

  /** `RecoveryWorkflow.start`. */
  function Started(s: State, i: Id, a: Id): State
    requires CanStart(s, i, a)
  {
    WithAttempt(s, a, NewAttempt(i, 1, None, s.incidents[i].planId, AffectedRoute), false)
  }

  predicate IsSolving(s: State, a: Id, forOptions: bool) {
    a in s.workers && s.workers[a] == Solving(forOptions) && a in s.attempts
  }

  /** The step that records that no plan exists in this scope; the worker goes on to widen it
      unless there is no wider scope. */
  function RecordedInfeasible(s: State, a: Id): State
    requires IsSolving(s, a, false)
  {
    s.(attempts := s.attempts[a := s.attempts[a].(solver := Some(OutcomeInfeasible))],
       workers := if NextScope(s.attempts[a].scope).Some? then s.workers[a := Expanding] else s.workers - {a})
  }

  /** The step that records a failure of the orchestration or of the solver. */
  function RecordedError(s: State, a: Id): State
    requires a in s.workers && a in s.attempts
  {
    s.(attempts := s.attempts[a := s.attempts[a].(solver := Some(OutcomeError))], workers := s.workers - {a})
  }

  /** The step that records a result that failed validation or road routing. */
  function RecordedInvalid(s: State, a: Id): State
    requires IsSolving(s, a, false)
  {
    s.(attempts := s.attempts[a := s.attempts[a].(solver := Some(OutcomeFeasible), validation := Some(Invalid))],
       workers := s.workers - {a})
  }

  /** A worker that meets a conflict, or dies, leaves its attempt as it is. */
  function Abandoned(s: State, a: Id): State {
    s.(workers := s.workers - {a})
  }

  predicate CanExpand(s: State, a: Id, b: Id) {
    && a in s.workers && s.workers[a] == Expanding && a in s.attempts && b !in s.attempts
    && var x := s.attempts[a];
       NextScope(x.scope).Some? && Materializes(s, x.incidentId, NextScope(x.scope).value) && s.incidents[x.incidentId].planId == x.base
       && NumberFree(s, x.incidentId, x.no + 1)
  }

  /** The next round of `_execute_attempts`; a taken attempt number is refused by the table. */
  function Expanded(s: State, a: Id, b: Id): State
    requires CanExpand(s, a, b)
  {
    var x := s.attempts[a];
    WithAttempt(Abandoned(s, a), b, NewAttempt(x.incidentId, x.no + 1, Some(a), x.base, NextScope(x.scope).value), false)
  }

  predicate CanPropose(s: State, a: Id, p: Id, latest: Option<Id>) {
    && IsSolving(s, a, false) && p !in s.plans
    && var x := s.attempts[a];
       Materializes(s, x.incidentId, x.scope) && s.incidents[x.incidentId].planId == x.base
       && IsLatest(s, s.plans[x.base].date, latest) && latest.Some?
  }

  /** The attempt with its candidate, up for review. */
  function Offered(x: Attempt, p: Id, isOption: bool): Attempt {
    x.(candidate := Some(p), status := PendingReview, solver := Some(OutcomeFeasible), validation := Some(Valid),
       explained := true, isOption := isOption)
  }

  function CandidatePlan(s: State, base: Id, latest: Option<Id>, consistent: bool): Plan
    requires base in s.plans && (latest.Some? ==> latest.value in s.plans)
  {
    PlanAfter(s, s.plans[base].date, latest, s.plans[base].group, Some(base), PlanCandidate, None).(consistent := consistent)
  }

  /** The last step of `_execute_attempts`: candidate, attempt and incident together. */
  function Proposed(s: State, a: Id, p: Id, latest: Option<Id>, consistent: bool): State
    requires CanPropose(s, a, p, latest)
  {
    var x := s.attempts[a];
    s.(plans := s.plans[p := CandidatePlan(s, x.base, latest, consistent)],
       attempts := s.attempts[a := Offered(x, p, false)],
       incidents := s.incidents[x.incidentId := s.incidents[x.incidentId].(status := Review)],
       workers := s.workers - {a})
  }

  // ----- closing attempts -----

  function WithVerdict(x: Attempt, v: Verdict): Attempt {
    x.(status := Decided, verdict := Some(v))
  }

  /** All these pending attempts get the verdict. */
  function ClosedAttempts(attempts: map<Id, Attempt>, closing: set<Id>, v: Verdict): map<Id, Attempt> {
    map a | a in attempts :: if a in closing then WithVerdict(attempts[a], v) else attempts[a]
  }

  /** The plans of these attempts are cancelled. */
  function CancelledPlans(plans: map<Id, Plan>, attempts: map<Id, Attempt>, closing: set<Id>): map<Id, Plan> {
    map p | p in plans ::
      if exists a :: a in closing && a in attempts && attempts[a].candidate == Some(p) then plans[p].(status := PlanCancelled) else plans[p]
  }

  /** `_pending_siblings`. */
  function PendingOf(s: State, i: Id, except: set<Id>): set<Id> {
    set a | a in s.attempts && s.attempts[a].incidentId == i && a !in except && s.attempts[a].status == PendingReview
  }

  function Closed(s: State, closing: set<Id>, v: Verdict): State {
    s.(plans := CancelledPlans(s.plans, s.attempts, closing), attempts := ClosedAttempts(s.attempts, closing, v))
  }

  // ----- options -----

  predicate CanStartOptions(s: State, i: Id, a: Id, last: Option<Id>, regenerate: bool) {
    && a !in s.attempts && Materializes(s, i, AffectedRoute)
    && (forall b :: b in s.attempts ==> !Unsolved(s, b, i))
    && (forall b :: b in s.attempts && Pending(s, b, i) ==> s.attempts[b].isOption)
    && match last
       case None => forall b :: b in s.attempts ==> s.attempts[b].incidentId != i
       case Some(b) => regenerate && IsLastAttempt(s, b, i)
  }

  /** `RecoveryOptionsWorkflow.start`, before the new attempt is reserved: what is under review is
      closed. */
  function OptionsCleared(s: State, i: Id, now: Instant): State
    requires i in s.incidents
  {
    Closed(s, PendingOf(s, i, {}), Verdict(Reject, SYSTEM, now))
      .(incidents := s.incidents[i := s.incidents[i].(status := Replanning)])
  }

  function OptionsStarted(s: State, i: Id, a: Id, last: Option<Id>, regenerate: bool, now: Instant): State
    requires CanStartOptions(s, i, a, last, regenerate)
  {
    WithAttempt(OptionsCleared(s, i, now), a,
                NewAttempt(i, if last.Some? then s.attempts[last.value].no + 1 else 1, last, s.incidents[i].planId, AffectedRoute), true)
  }

  /** One stored option: the attempt that carries it, its candidate with the verdict on its snapshot, and
      its scope. */
  datatype Option_ = Option_(attemptId: Id, planId: Id, scope: Scope, consistent: bool)

  /** Option k goes to the reserved attempt when it is the first, otherwise to a new one. */
  predicate CanAddOption(s: State, previous: Id, first: bool, o: Option_, latest: Option<Id>) {
    && previous in s.attempts && o.planId !in s.plans && (if first then o.attemptId == previous else o.attemptId !in s.attempts)
    && s.attempts[previous].base in s.plans && IsLatest(s, s.plans[s.attempts[previous].base].date, latest) && latest.Some?
    && (!first ==> NumberFree(s, s.attempts[previous].incidentId, s.attempts[previous].no + 1))
  }

  function OptionAdded(s: State, previous: Id, first: bool, o: Option_, latest: Option<Id>): State
    requires CanAddOption(s, previous, first, o, latest)
  {
    var x := s.attempts[previous];
    var row := if first then x.(scope := o.scope) else NewAttempt(x.incidentId, x.no + 1, Some(previous), x.base, o.scope);
    s.(plans := s.plans[o.planId := CandidatePlan(s, x.base, latest, o.consistent)],
       attempts := s.attempts[o.attemptId := Offered(row, o.planId, true)])
  }

  /** Options beyond the limit are kept for the record: not reviewable, their plans cancelled. */
  function Filtered(s: State, beyond: set<Id>): State {
    s.(plans := CancelledPlans(s.plans, s.attempts, beyond),
       attempts := map a | a in s.attempts :: if a in beyond then s.attempts[a].(status := Draft) else s.attempts[a])
  }

  /** The attempt that option n follows. */
  function Before(a: Id, options: seq<Option_>, n: nat): Id
    requires n < |options|
  {
    if n == 0 then a else options[n - 1].attemptId
  }

  function OneMore(s: Option<State>, previous: Id, first: bool, o: Option_, latest: Option<Id>): Option<State> {
    if s.Some? && CanAddOption(s.value, previous, first, o, latest) then Some(OptionAdded(s.value, previous, first, o, latest)) else None
  }

  /** The state after the first n options, each numbered after the latest plan so far. */
  function OptionsAdded(s: State, a: Id, options: seq<Option_>, latests: seq<Option<Id>>, n: nat): Option<State>
    requires n <= |options| == |latests|
  {
    if n == 0 then Some(s)
    else OneMore(OptionsAdded(s, a, options, latests, n - 1), Before(a, options, n - 1), n == 1, options[n - 1], latests[n - 1])
  }

  predicate CanStoreOptions(s: State, a: Id, options: seq<Option_>, latest: seq<Option<Id>>, beyond: set<Id>) {
    && IsSolving(s, a, true) && |options| == |latest|
    && BaseIsCurrent(s, s.attempts[a].incidentId) && s.incidents[s.attempts[a].incidentId].planId == s.attempts[a].base
    && (forall scope :: AtLeast(s.attempts[a].scope, scope) ==> Materializes(s, s.attempts[a].incidentId, scope))
    && OptionsAdded(s, a, options, latest, |options|).Some?
    && (forall b :: b in beyond ==> exists k :: 0 <= k < |options| && options[k].attemptId == b)
  }

  /** The final step of `_generate`. */
  function OptionsStored(s: State, a: Id, options: seq<Option_>, latest: seq<Option<Id>>, beyond: set<Id>): State
    requires CanStoreOptions(s, a, options, latest, beyond)
  {
    var i := s.attempts[a].incidentId;
    if options == [] then
      s.(attempts := s.attempts[a := s.attempts[a].(solver := Some(OutcomeInfeasible))],
         incidents := s.incidents[i := s.incidents[i].(status := Assessing)],
         workers := s.workers - {a})
    else
      Filtered(OptionsAdded(s, a, options, latest, |options|).value, beyond)
        .(incidents := s.incidents[i := s.incidents[i].(status := Review)], workers := s.workers - {a})
  }

  // ----- decisions -----

  /** `_lock_reviewable`, for an approval, a rejection and a modification alike. */
  predicate Reviewable(s: State, a: Id) {
    && a in s.attempts
    && var x := s.attempts[a];
       && x.status == PendingReview && IsPlan(s, x.base, PlanCurrent)
       && x.candidate.Some? && IsPlan(s, x.candidate.value, PlanCandidate)
       && var c, base := s.plans[x.candidate.value], s.plans[x.base];
          && c.parent == Some(x.base) && c.date == base.date && c.group == base.group && c.consistent
          && x.solver == Some(OutcomeFeasible) && x.validation == Some(Valid)
          && x.incidentId in s.incidents && s.incidents[x.incidentId].planId == x.base
  }

  predicate CanApprove(s: State, a: Id, now: Instant) {
    Reviewable(s, a) && s.incidents[s.attempts[a].incidentId].detectedAt <= now
  }

  /** The approved attempt with its plans and its incident. */
  function ApprovedOne(s: State, a: Id, v: Verdict): State
    requires Reviewable(s, a)
  {
    var x := s.attempts[a];
    s.(plans := s.plans[x.base := s.plans[x.base].(status := PlanSuperseded, supersededAt := Some(v.at))]
                       [x.candidate.value := s.plans[x.candidate.value].(status := PlanCurrent, activatedAt := Some(v.at))],
       incidents := s.incidents[x.incidentId := s.incidents[x.incidentId].(status := Resolved, resolvedAt := Some(v.at))],
       attempts := s.attempts[a := WithVerdict(x, v)])
  }

  /** An attempt that is turned down, with its candidate and its incident. */
  function DeclinedOne(s: State, a: Id, v: Verdict, status: IncidentStatus): State
    requires Reviewable(s, a)
  {
    var x := s.attempts[a];
    s.(plans := s.plans[x.candidate.value := s.plans[x.candidate.value].(status := PlanCancelled)],
       incidents := s.incidents[x.incidentId := s.incidents[x.incidentId].(status := status)],
       attempts := s.attempts[a := WithVerdict(x, v)])
  }

  /** `_close_siblings`, for an option. */
  function SiblingsClosed(s: State, a: Id, v: Verdict): State
    requires a in s.attempts
  {
    if s.attempts[a].isOption then Closed(s, PendingOf(s, s.attempts[a].incidentId, {a}), v) else s
  }

  function WithAttempt(s: State, b: Id, x: Attempt, forOptions: bool): State {
    s.(attempts := s.attempts[b := x], workers := s.workers[b := Solving(forOptions)])
  }

  /** `decide` with APPROVE. */
  function Approved(s: State, a: Id, who: Id, now: Instant): State
    requires CanApprove(s, a, now)
  {
    SiblingsClosed(ApprovedOne(s, a, Verdict(Approve, who, now)), a, Verdict(Reject, who, now))
  }

  /** `decide` with REJECT. */
  function Rejected(s: State, a: Id, who: Id, now: Instant): State
    requires Reviewable(s, a)
  {
    var x := s.attempts[a];
    DeclinedOne(s, a, Verdict(Reject, who, now),
                if x.isOption && PendingOf(s, x.incidentId, {a}) != {} then Review else Assessing)
  }

  predicate CanModify(s: State, a: Id, b: Id, last: Id) {
    && Reviewable(s, a) && NextScope(s.attempts[a].scope).Some? && b !in s.attempts
    && IsLastAttempt(s, last, s.attempts[a].incidentId) && (s.attempts[a].isOption || last == a)
  }

  /** `modify` up to the reservation of the next attempt. */
  function ModifiedSoFar(s: State, a: Id, who: Id, now: Instant): State
    requires Reviewable(s, a)
  {
    SiblingsClosed(DeclinedOne(s, a, Verdict(Modify, who, now), Replanning), a, Verdict(Reject, who, now))
  }

  /** `modify`: the attempt is closed, so are its siblings, and a wider one is reserved. */
  function Modified(s: State, a: Id, b: Id, last: Id, who: Id, now: Instant): State
    requires CanModify(s, a, b, last)
  {
    var x := s.attempts[a];
    WithAttempt(ModifiedSoFar(s, a, who, now), b,
                NewAttempt(x.incidentId, s.attempts[last].no + 1, Some(a), x.base, NextScope(x.scope).value), x.isOption)
  }

  // ----- all transactions -----

  datatype Event =
    | EGenerate(date: Date, latest: Option<Id>, planId: Id, group: Id, draft: bool, now: Instant)
    | EConfirm(planId: Id, now: Instant)
    | EReport(incidentId: Id, planId: Id, detectedAt: Instant, replan: bool)
    | EStart(incidentId: Id, attemptId: Id)
    | EInfeasible(attemptId: Id)
    | EError(attemptId: Id)
    | EInvalid(attemptId: Id)
    | EAbandon(attemptId: Id)
    | EExpand(attemptId: Id, next: Id)
    | EPropose(attemptId: Id, planId: Id, latest: Option<Id>, consistent: bool)
    | EStartOptions(incidentId: Id, attemptId: Id, last: Option<Id>, regenerate: bool, now: Instant)
    | EStoreOptions(attemptId: Id, options: seq<Option_>, latests: seq<Option<Id>>, beyond: set<Id>)
    | EApprove(attemptId: Id, who: Id, now: Instant)
    | EReject(attemptId: Id, who: Id, now: Instant)
    | EModify(attemptId: Id, next: Id, lastId: Id, who: Id, now: Instant)
    | EFacts(obstructed: set<(Id, Scope)>)   // stop actions and edits of orders, vehicles and drivers

  predicate Enabled(s: State, e: Event) {
    match e
    case EGenerate(date, latest, p, g, draft, now) => CanGenerate(s, date, latest, p)
    case EConfirm(p, now) => CanConfirm(s, p)
    case EReport(i, p, at, replan) => CanReport(s, i, p)
    case EStart(i, a) => CanStart(s, i, a)
    case EInfeasible(a) => IsSolving(s, a, false)
    case EError(a) => a in s.attempts && a in s.workers && s.workers[a].Solving?
    case EInvalid(a) => IsSolving(s, a, false)
    case EAbandon(a) => a in s.workers
    case EExpand(a, b) => CanExpand(s, a, b)
    case EPropose(a, p, latest, consistent) => CanPropose(s, a, p, latest)
    case EStartOptions(i, a, last, regenerate, now) => CanStartOptions(s, i, a, last, regenerate)
    case EStoreOptions(a, options, latests, beyond) => CanStoreOptions(s, a, options, latests, beyond)
    case EApprove(a, who, now) => CanApprove(s, a, now)
    case EReject(a, who, now) => Reviewable(s, a)
    case EModify(a, b, last, who, now) => CanModify(s, a, b, last)
    case EFacts(obstructed) => true
  }

  function Apply(s: State, e: Event): State
    requires Enabled(s, e)
  {
    match e
    case EGenerate(date, latest, p, g, draft, now) => Generated(s, date, latest, p, g, draft, now)
    case EConfirm(p, now) => Confirmed(s, p, now)
    case EReport(i, p, at, replan) => Reported(s, i, p, at, replan)
    case EStart(i, a) => Started(s, i, a)
    case EInfeasible(a) => RecordedInfeasible(s, a)
    case EError(a) => RecordedError(s, a)
    case EInvalid(a) => RecordedInvalid(s, a)
    case EAbandon(a) => Abandoned(s, a)
    case EExpand(a, b) => Expanded(s, a, b)
    case EPropose(a, p, latest, consistent) => Proposed(s, a, p, latest, consistent)
    case EStartOptions(i, a, last, regenerate, now) => OptionsStarted(s, i, a, last, regenerate, now)
    case EStoreOptions(a, options, latests, beyond) => OptionsStored(s, a, options, latests, beyond)
    case EApprove(a, who, now) => Approved(s, a, who, now)
    case EReject(a, who, now) => Rejected(s, a, who, now)
    case EModify(a, b, last, who, now) => Modified(s, a, b, last, who, now)
    case EFacts(obstructed) => s.(obstructed := obstructed)
  }

  /** A transaction that is refused changes nothing. */
  function Step(s: State, e: Event): State {
    if Enabled(s, e) then Apply(s, e) else s
  }

  const EMPTY := State(map[], map[], map[], map[], {})

  function Run(s: State, events: seq<Event>): State {
    if events == [] then s else Step(Run(s, events[..|events| - 1]), events[|events| - 1])
  }
}

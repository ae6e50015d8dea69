/** The transactions of planning, recovery and review, told column by column: when each goes through and
    which rows it leaves behind. */
module Transactions {
  import opened Ordering
  import opened Domain
  import opened Protocol

  // ----- scopes -----

  /** Scopes are widened one at a time. */
  predicate Widens(x: Scope, y: Scope) {
    (x == AffectedRoute && y == CrossRoute) || (x == CrossRoute && y == AllRemaining)
  }

  lemma {:induction false} ScopesWiden(x: Scope, y: Scope)
    ensures NextScope(x) == Some(y) <==> Widens(x, y)
    ensures NextScope(x) == None <==> x == AllRemaining
    ensures AtLeast(x, y) <==> x == AffectedRoute || y == AllRemaining || x == y
  {
  }

  // ----- rows -----

  /** Row `key` is new or changed, the others are as they were. */
  ghost predicate OnlyRow<T(!new)>(was: map<Id, T>, now: map<Id, T>, key: Id) {
    key in now && forall x :: x != key ==> (x in now <==> x in was) && (x in was && x in now ==> now[x] == was[x])
  }

  ghost predicate RowGone<T(!new)>(was: map<Id, T>, now: map<Id, T>, key: Id) {
    key !in now && forall x :: x != key ==> (x in now <==> x in was) && (x in was && x in now ==> now[x] == was[x])
  }

  ghost predicate Unplanned(s: State, date: Date) {
    forall p :: p in s.plans && s.plans[p].date == date ==> s.plans[p].status != PlanCurrent
  }

  /** The plan of the date with the highest version, if there is a plan. */
  ghost predicate Newest(s: State, date: Date, latest: Option<Id>) {
    if latest == None then forall p :: p in s.plans ==> s.plans[p].date != date
    else
      && latest.value in s.plans && s.plans[latest.value].date == date
      && forall p :: p in s.plans && s.plans[p].date == date ==> s.plans[p].version <= s.plans[latest.value].version
  }

  /** The incident is open, its plan is still current, and no order in the scope stands in the way. */
  ghost predicate CanBeRead(s: State, i: Id, scope: Scope) {
    && i in s.incidents && s.incidents[i].status != Resolved
    && s.incidents[i].planId in s.plans && s.plans[s.incidents[i].planId].status == PlanCurrent
    && (i, scope) !in s.obstructed
  }

  ghost predicate IsOf(s: State, a: Id, i: Id) {
    a in s.attempts && s.attempts[a].incidentId == i
  }

  ghost predicate SolvedBy(s: State, a: Id, forOptions: bool) {
    a in s.attempts && a in s.workers && s.workers[a] == Solving(forOptions)
  }

  /** The attempt with the highest number of its incident. */
  ghost predicate HighestAttempt(s: State, a: Id, i: Id) {
    IsOf(s, a, i) && forall b :: IsOf(s, b, i) ==> s.attempts[b].no <= s.attempts[a].no
  }

  // ----- when a transaction goes through -----

  /** An attempt under review whose candidate still fits the plan in force. */
  ghost predicate UnderReview(s: State, a: Id) {
    && a in s.attempts
    && var x := s.attempts[a];
       && x.status == PendingReview && x.solver == Some(OutcomeFeasible) && x.validation == Some(Valid)
       && x.base in s.plans && s.plans[x.base].status == PlanCurrent
       && x.candidate.Some? && x.candidate.value in s.plans
       && x.incidentId in s.incidents && s.incidents[x.incidentId].planId == x.base
       && var base, candidate := s.plans[x.base], s.plans[x.candidate.value];
          && candidate.status == PlanCandidate && candidate.parent == Some(x.base)
          && candidate.date == base.date && candidate.group == base.group && candidate.consistent
  }

  /** The first n options can be stored one after the other: the first in the reserved attempt a, each further
      one in a new attempt under the next number, and each with a plan numbered after the one before. */
  ghost predicate Storable(s: State, a: Id, options: seq<Option_>, latests: seq<Option<Id>>, n: nat)
    requires a in s.attempts && n <= |options| == |latests|
  {
    && (0 < n ==>
         && s.attempts[a].base in s.plans && latests[0].Some? && Newest(s, s.plans[s.attempts[a].base].date, latests[0])
         && options[0].attemptId == a)
    && (forall k :: 0 <= k < n ==> options[k].planId !in s.plans)
    && (forall k :: 0 < k < n ==> Follows(s, a, options, latests, k))
    && forall j, k :: 0 <= j < k < n ==> options[j].planId != options[k].planId && options[j].attemptId != options[k].attemptId
  }

  ghost predicate Follows(s: State, a: Id, options: seq<Option_>, latests: seq<Option<Id>>, k: int)
    requires a in s.attempts && 0 < k < |options| == |latests|
  {
    && options[k].attemptId !in s.attempts && latests[k] == Some(options[k - 1].planId)
    && forall b :: IsOf(s, b, s.attempts[a].incidentId) ==> s.attempts[b].no != s.attempts[a].no + k
  }

  /** The worker still has the reserved attempt, its incident is open under the same plan in every scope that
      was tried, and the options can be stored. */
  ghost predicate MayStore(s: State, a: Id, options: seq<Option_>, latests: seq<Option<Id>>, beyond: set<Id>) {
    && SolvedBy(s, a, true) && |options| == |latests|
    && CanBeRead(s, s.attempts[a].incidentId, s.attempts[a].scope)
    && (forall scope :: s.attempts[a].scope == AffectedRoute || scope == AllRemaining ==> CanBeRead(s, s.attempts[a].incidentId, scope))
    && s.incidents[s.attempts[a].incidentId].planId == s.attempts[a].base
    && Storable(s, a, options, latests, |options|)
    && forall b :: b in beyond ==> exists k :: 0 <= k < |options| && options[k].attemptId == b
  }

  ghost predicate May(s: State, e: Event) {
    match e
    case EGenerate(date, latest, p, g, draft, now) => p !in s.plans && Unplanned(s, date) && Newest(s, date, latest)
    case EConfirm(p, now) =>
      p in s.plans && s.plans[p].status == PlanDraft && Newest(s, s.plans[p].date, Some(p)) && Unplanned(s, s.plans[p].date)
    case EReport(i, p, at, replan) => i !in s.incidents && p in s.plans && s.plans[p].status == PlanCurrent
    case EStart(i, a) => a !in s.attempts && CanBeRead(s, i, AffectedRoute) && forall b :: !IsOf(s, b, i)
    case EInfeasible(a) => SolvedBy(s, a, false)
    case EError(a) => SolvedBy(s, a, false) || SolvedBy(s, a, true)
    case EInvalid(a) => SolvedBy(s, a, false)
    case EAbandon(a) => a in s.workers
    case EExpand(a, b) =>
      && a in s.attempts && b !in s.attempts && a in s.workers && s.workers[a] == Expanding
      && var x := s.attempts[a];
         && (exists scope :: Widens(x.scope, scope) && CanBeRead(s, x.incidentId, scope)) && s.incidents[x.incidentId].planId == x.base
         && forall c :: IsOf(s, c, x.incidentId) ==> s.attempts[c].no != x.no + 1
    case EPropose(a, p, latest, consistent) =>
      && SolvedBy(s, a, false) && p !in s.plans
      && var x := s.attempts[a];
         && CanBeRead(s, x.incidentId, x.scope) && s.incidents[x.incidentId].planId == x.base
         && latest.Some? && Newest(s, s.plans[x.base].date, latest)
    case EStartOptions(i, a, last, regenerate, now) =>
      && a !in s.attempts && CanBeRead(s, i, AffectedRoute)
      && (forall b :: IsOf(s, b, i) ==> !(s.attempts[b].status == Draft && s.attempts[b].solver == None))
      && (forall b :: IsOf(s, b, i) && s.attempts[b].status == PendingReview ==> s.attempts[b].isOption)
      && if last == None then (forall b :: !IsOf(s, b, i)) else regenerate && HighestAttempt(s, last.value, i)
    case EStoreOptions(a, options, latests, beyond) => MayStore(s, a, options, latests, beyond)
    case EApprove(a, who, now) => UnderReview(s, a) && s.incidents[s.attempts[a].incidentId].detectedAt <= now
    case EReject(a, who, now) => UnderReview(s, a)
    case EModify(a, b, last, who, now) =>
      && UnderReview(s, a) && b !in s.attempts && s.attempts[a].scope != AllRemaining
      && HighestAttempt(s, last, s.attempts[a].incidentId) && (s.attempts[a].isOption || last == a)
    case EFacts(obstructed) => true
  }

  lemma {:induction false} LatestIff(s: State, date: Date, latest: Option<Id>)
    ensures IsLatest(s, date, latest) <==> Newest(s, date, latest)
    ensures !HasCurrent(s, date) <==> Unplanned(s, date)
  {
  }

  lemma {:induction false} ReviewIff(s: State, a: Id)
    ensures Reviewable(s, a) <==> UnderReview(s, a)
  {
  }

  lemma {:induction false} LastIff(s: State, a: Id, i: Id)
    ensures IsLastAttempt(s, a, i) <==> HighestAttempt(s, a, i)
  {
    if HighestAttempt(s, a, i) {
      forall b | b in s.attempts && s.attempts[b].incidentId == i ensures s.attempts[b].no <= s.attempts[a].no {
        assert IsOf(s, b, i);
      }
    }
  }

  lemma {:induction false} ExpandIff(s: State, a: Id, b: Id)
    ensures CanExpand(s, a, b) <==> May(s, EExpand(a, b))
  {
    if a in s.attempts {
      var x := s.attempts[a];
      forall scope ensures NextScope(x.scope) == Some(scope) <==> Widens(x.scope, scope) { ScopesWiden(x.scope, scope); }
      assert (forall c :: IsOf(s, c, x.incidentId) ==> s.attempts[c].no != x.no + 1) <==> NumberFree(s, x.incidentId, x.no + 1) by {
        forall c ensures IsOf(s, c, x.incidentId) <==> c in s.attempts && s.attempts[c].incidentId == x.incidentId { }
      }
    }
  }

  lemma {:induction false} StartOptionsIff(s: State, i: Id, a: Id, last: Option<Id>, regenerate: bool, now: Instant)
    ensures CanStartOptions(s, i, a, last, regenerate) <==> May(s, EStartOptions(i, a, last, regenerate, now))
  {
    forall b ensures IsOf(s, b, i) <==> b in s.attempts && s.attempts[b].incidentId == i { }
    if last.Some? { LastIff(s, last.value, i); }
    forall b | b in s.attempts ensures Unsolved(s, b, i) <==> IsOf(s, b, i) && s.attempts[b].status == Draft && s.attempts[b].solver == None { }
    forall b | b in s.attempts ensures Pending(s, b, i) <==> IsOf(s, b, i) && s.attempts[b].status == PendingReview { }
  }

  // ----- a batch of options -----

  /** The plan of option k: numbered on from the newest plan of its date. */
  ghost predicate OptionPlan(s: State, a: Id, options: seq<Option_>, latest: Id, plan: Plan, k: int)
    requires a in s.attempts && s.attempts[a].base in s.plans && latest in s.plans && 0 <= k < |options|
  {
    var base := s.plans[s.attempts[a].base];
    plan == Plan(base.date, base.group, s.plans[latest].version + 1 + k, Some(s.attempts[a].base), PlanCandidate, None, None, options[k].consistent)
  }

  /** The attempt of option k: up for review with its plan. */
  ghost predicate OptionAttempt(s: State, a: Id, options: seq<Option_>, x: Attempt, k: int)
    requires a in s.attempts && 0 <= k < |options|
  {
    var was := s.attempts[a];
    && x.incidentId == was.incidentId && x.base == was.base && x.no == was.no + k && x.scope == options[k].scope
    && x.previous == (if k == 0 then was.previous else Some(options[k - 1].attemptId))
    && x.status == PendingReview && x.solver == Some(OutcomeFeasible) && x.validation == Some(Valid)
    && x.candidate == Some(options[k].planId) && x.explained && x.isOption && x.verdict == (if k == 0 then was.verdict else None)
  }

  ghost predicate IsOptionPlan(options: seq<Option_>, n: nat, p: Id) {
    exists k :: 0 <= k < n && k < |options| && options[k].planId == p
  }

  ghost predicate IsOptionAttempt(options: seq<Option_>, n: nat, b: Id) {
    exists k :: 0 <= k < n && k < |options| && options[k].attemptId == b
  }

  ghost predicate PlansTell(s: State, a: Id, options: seq<Option_>, latests: seq<Option<Id>>, n: nat, plans: map<Id, Plan>)
    requires a in s.attempts && n <= |options| == |latests| && Storable(s, a, options, latests, n)
  {
    && (forall p :: p in plans <==> p in s.plans || IsOptionPlan(options, n, p))
    && (forall p :: p in s.plans ==> p in plans && plans[p] == s.plans[p])
    && forall k :: 0 <= k < n ==> options[k].planId in plans && OptionPlan(s, a, options, latests[0].value, plans[options[k].planId], k)
  }

  ghost predicate AttemptsTell(s: State, a: Id, options: seq<Option_>, n: nat, attempts: map<Id, Attempt>)
    requires a in s.attempts && n <= |options|
  {
    && (forall b :: b in attempts <==> b in s.attempts || IsOptionAttempt(options, n, b))
    && (forall b :: b in s.attempts && (b != a || n == 0) ==> b in attempts && attempts[b] == s.attempts[b])
    && forall k :: 0 <= k < n ==> options[k].attemptId in attempts && OptionAttempt(s, a, options, attempts[options[k].attemptId], k)
  }

  /** The tables after the first n options. */
  ghost predicate OptionsTell(s: State, a: Id, options: seq<Option_>, latests: seq<Option<Id>>, n: nat, t: State)
    requires a in s.attempts && n <= |options| == |latests| && Storable(s, a, options, latests, n)
  {
    && t.incidents == s.incidents && t.workers == s.workers && t.obstructed == s.obstructed
    && PlansTell(s, a, options, latests, n, t.plans) && AttemptsTell(s, a, options, n, t.attempts)
  }

  /** After the first n options the newest plan of the date is that of the last of them. */
  lemma {:induction false} NewestOption(s: State, a: Id, options: seq<Option_>, latests: seq<Option<Id>>, n: nat, t: State, latest: Option<Id>)
    requires a in s.attempts && 0 < n <= |options| == |latests| && Storable(s, a, options, latests, n)
    requires PlansTell(s, a, options, latests, n, t.plans)
    ensures Newest(t, s.plans[s.attempts[a].base].date, latest) <==> latest == Some(options[n - 1].planId)
  {
    var date, last := s.plans[s.attempts[a].base].date, options[n - 1].planId;
    assert OptionPlan(s, a, options, latests[0].value, t.plans[last], n - 1);
    forall p | p in t.plans && t.plans[p].date == date && p != last ensures t.plans[p].version < t.plans[last].version {
      if p !in s.plans {
        var k :| 0 <= k < n && k < |options| && options[k].planId == p;
        assert OptionPlan(s, a, options, latests[0].value, t.plans[options[k].planId], k);
      }
    }
  }

  lemma {:induction false} NumberStaysFree(s: State, a: Id, options: seq<Option_>, n: nat, t: State)
    requires a in s.attempts && 0 < n <= |options| && options[0].attemptId == a && AttemptsTell(s, a, options, n, t.attempts)
    ensures NumberFree(t, s.attempts[a].incidentId, s.attempts[a].no + n)
            <==> forall b :: IsOf(s, b, s.attempts[a].incidentId) ==> s.attempts[b].no != s.attempts[a].no + n
  {
    var i, no := s.attempts[a].incidentId, s.attempts[a].no + n;
    forall k | 0 <= k < n ensures t.attempts[options[k].attemptId].no < no {
      assert OptionAttempt(s, a, options, t.attempts[options[k].attemptId], k);
    }
    assert forall b :: IsOptionAttempt(options, n, b) ==> t.attempts[b].no != no;
    assert IsOptionAttempt(options, n, a) by { assert options[0].attemptId == a; }
    forall b | b in t.attempts && t.attempts[b].incidentId == i && t.attempts[b].no == no ensures IsOf(s, b, i) && s.attempts[b].no == no {
      assert b in s.attempts && b != a;
    }
    forall b | IsOf(s, b, i) && s.attempts[b].no == no ensures b in t.attempts && t.attempts[b].incidentId == i && t.attempts[b].no == no {
      assert b != a;
    }
  }

  lemma {:induction false} StorableOneMore(s: State, a: Id, options: seq<Option_>, latests: seq<Option<Id>>, n: nat)
    requires a in s.attempts && 0 < n < |options| == |latests|
    ensures Storable(s, a, options, latests, n + 1) <==>
              && Storable(s, a, options, latests, n) && options[n].planId !in s.plans && Follows(s, a, options, latests, n)
              && !IsOptionPlan(options, n, options[n].planId) && !IsOptionAttempt(options, n, options[n].attemptId)
  {
    if Storable(s, a, options, latests, n + 1) {
      assert Follows(s, a, options, latests, n);
    }
  }

  lemma {:induction false} FirstOptionTells(s: State, a: Id, options: seq<Option_>, latests: seq<Option<Id>>)
    requires a in s.attempts && 0 < |options| == |latests|
    ensures CanAddOption(s, a, true, options[0], latests[0]) <==> Storable(s, a, options, latests, 1)
    ensures Storable(s, a, options, latests, 1) ==>
              OptionsTell(s, a, options, latests, 1, OptionAdded(s, a, true, options[0], latests[0]))
  {
    if s.attempts[a].base in s.plans { LatestIff(s, s.plans[s.attempts[a].base].date, latests[0]); }
    forall p ensures IsOptionPlan(options, 1, p) <==> p == options[0].planId { }
    forall b ensures IsOptionAttempt(options, 1, b) <==> b == options[0].attemptId { }
  }

  /** The row that option n follows. */
  lemma {:induction false} PreviousOption(s: State, a: Id, options: seq<Option_>, latests: seq<Option<Id>>, n: nat, t: State)
    requires a in s.attempts && 0 < n < |options| == |latests| && Storable(s, a, options, latests, n)
    requires OptionsTell(s, a, options, latests, n, t)
    ensures var x, b := s.attempts[a], options[n - 1].attemptId;
            && b in t.attempts && t.attempts[b].incidentId == x.incidentId && t.attempts[b].base == x.base && t.attempts[b].no + 1 == x.no + n
            && x.base in s.plans && x.base in t.plans && t.plans[x.base] == s.plans[x.base]
    ensures latests[n].Some? && latests[n].value == options[n - 1].planId ==>
              latests[n].value in t.plans && t.plans[latests[n].value].version == s.plans[latests[0].value].version + n
  {
    assert OptionAttempt(s, a, options, t.attempts[options[n - 1].attemptId], n - 1);
    assert OptionPlan(s, a, options, latests[0].value, t.plans[options[n - 1].planId], n - 1);
  }

  lemma {:induction false} NextOptionAllowed(s: State, a: Id, options: seq<Option_>, latests: seq<Option<Id>>, n: nat, t: State)
    requires a in s.attempts && 0 < n < |options| == |latests| && Storable(s, a, options, latests, n)
    requires OptionsTell(s, a, options, latests, n, t)
    ensures CanAddOption(t, options[n - 1].attemptId, false, options[n], latests[n]) <==> Storable(s, a, options, latests, n + 1)
  {
    PreviousOption(s, a, options, latests, n, t);
    assert CanAddOption(t, options[n - 1].attemptId, false, options[n], latests[n]) <==>
             && !IsOptionPlan(options, n, options[n].planId) && options[n].planId !in s.plans
             && !IsOptionAttempt(options, n, options[n].attemptId) && options[n].attemptId !in s.attempts
             && latests[n] == Some(options[n - 1].planId)
             && NumberFree(t, s.attempts[a].incidentId, s.attempts[a].no + n) by {
      NewestOption(s, a, options, latests, n, t, latests[n]);
      LatestIff(t, s.plans[s.attempts[a].base].date, latests[n]);
    }
    NumberStaysFree(s, a, options, n, t);
    StorableOneMore(s, a, options, latests, n);
  }

  lemma {:induction false} NextPlanTells(s: State, a: Id, options: seq<Option_>, latests: seq<Option<Id>>, n: nat, plans: map<Id, Plan>, plan: Plan)
    requires a in s.attempts && 0 < n < |options| == |latests| && Storable(s, a, options, latests, n + 1) && Storable(s, a, options, latests, n)
    requires PlansTell(s, a, options, latests, n, plans) && OptionPlan(s, a, options, latests[0].value, plan, n)
    ensures PlansTell(s, a, options, latests, n + 1, plans[options[n].planId := plan])
  {
    var after := plans[options[n].planId := plan];
    forall p ensures IsOptionPlan(options, n + 1, p) <==> IsOptionPlan(options, n, p) || p == options[n].planId { OneMoreIs(options, n, p); }
    forall k | 0 <= k <= n ensures options[k].planId in after && OptionPlan(s, a, options, latests[0].value, after[options[k].planId], k) {
      if k < n { assert OptionPlan(s, a, options, latests[0].value, plans[options[k].planId], k); }
    }
  }

  lemma {:induction false} NextAttemptTells(s: State, a: Id, options: seq<Option_>, n: nat, attempts: map<Id, Attempt>, x: Attempt)
    requires a in s.attempts && 0 < n < |options|
    requires options[n].attemptId !in s.attempts && !IsOptionAttempt(options, n, options[n].attemptId)
    requires AttemptsTell(s, a, options, n, attempts) && OptionAttempt(s, a, options, x, n)
    ensures AttemptsTell(s, a, options, n + 1, attempts[options[n].attemptId := x])
  {
    var id := options[n].attemptId;
    var after := attempts[id := x];
    forall b ensures IsOptionAttempt(options, n + 1, b) <==> IsOptionAttempt(options, n, b) || b == id { OneMoreIs(options, n, b); }
    forall k | 0 <= k < n ensures options[k].attemptId != id && OptionAttempt(s, a, options, attempts[options[k].attemptId], k) {
      assert IsOptionAttempt(options, n, options[k].attemptId);
    }
    forall k | 0 <= k <= n ensures options[k].attemptId in after && OptionAttempt(s, a, options, after[options[k].attemptId], k) {
      assert k < n || k == n;
    }
  }

  lemma {:induction false} NextOptionTells(s: State, a: Id, options: seq<Option_>, latests: seq<Option<Id>>, n: nat, t: State)
    requires a in s.attempts && 0 < n < |options| == |latests| && Storable(s, a, options, latests, n + 1) && Storable(s, a, options, latests, n)
    requires OptionsTell(s, a, options, latests, n, t) && CanAddOption(t, options[n - 1].attemptId, false, options[n], latests[n])
    ensures OptionsTell(s, a, options, latests, n + 1, OptionAdded(t, options[n - 1].attemptId, false, options[n], latests[n]))
  {
    var u := OptionAdded(t, options[n - 1].attemptId, false, options[n], latests[n]);
    StorableOneMore(s, a, options, latests, n);
    PreviousOption(s, a, options, latests, n, t);
    assert OptionPlan(s, a, options, latests[0].value, u.plans[options[n].planId], n);
    NextPlanTells(s, a, options, latests, n, t.plans, u.plans[options[n].planId]);
    assert OptionAttempt(s, a, options, u.attempts[options[n].attemptId], n);
    NextAttemptTells(s, a, options, n, t.attempts, u.attempts[options[n].attemptId]);
  }

  lemma {:induction false} OneMoreIs(options: seq<Option_>, n: nat, id: Id)
    requires n < |options|
    ensures IsOptionPlan(options, n + 1, id) <==> IsOptionPlan(options, n, id) || id == options[n].planId
    ensures IsOptionAttempt(options, n + 1, id) <==> IsOptionAttempt(options, n, id) || id == options[n].attemptId
  {
    if k :| 0 <= k < n + 1 && k < |options| && options[k].planId == id { assert k < n || k == n; }
    if k :| 0 <= k < n + 1 && k < |options| && options[k].attemptId == id { assert k < n || k == n; }
  }

  lemma {:induction false} StorableLess(s: State, a: Id, options: seq<Option_>, latests: seq<Option<Id>>, n: nat, m: nat)
    requires a in s.attempts && n <= m <= |options| == |latests| && Storable(s, a, options, latests, m)
    ensures Storable(s, a, options, latests, n)
  {
  }

  /** The rows of a batch: they can be added exactly when they are storable, and then tell the options. */
  lemma {:induction false} BatchTells(s: State, a: Id, options: seq<Option_>, latests: seq<Option<Id>>, n: nat)
    requires a in s.attempts && n <= |options| == |latests|
    ensures OptionsAdded(s, a, options, latests, n).Some? <==> Storable(s, a, options, latests, n)
    ensures Storable(s, a, options, latests, n) ==> OptionsTell(s, a, options, latests, n, OptionsAdded(s, a, options, latests, n).value)
  {
    if n == 1 {
      FirstOptionTells(s, a, options, latests);
    } else if 1 < n {
      BatchTells(s, a, options, latests, n - 1);
      if Storable(s, a, options, latests, n) { StorableLess(s, a, options, latests, n - 1, n); }
      if Storable(s, a, options, latests, n - 1) {
        var t := OptionsAdded(s, a, options, latests, n - 1).value;
        NextOptionAllowed(s, a, options, latests, n - 1, t);
        if Storable(s, a, options, latests, n) { NextOptionTells(s, a, options, latests, n - 1, t); }
      }
    }
  }

  lemma {:induction false} StoreIff(s: State, a: Id, options: seq<Option_>, latests: seq<Option<Id>>, beyond: set<Id>)
    ensures CanStoreOptions(s, a, options, latests, beyond) <==> MayStore(s, a, options, latests, beyond)
  {
    if SolvedBy(s, a, true) {
      var x := s.attempts[a];
      forall scope
        ensures Materializes(s, x.incidentId, scope) <==> CanBeRead(s, x.incidentId, scope)
        ensures AtLeast(x.scope, scope) <==> x.scope == AffectedRoute || scope == AllRemaining || scope == x.scope
      {
        ScopesWiden(x.scope, scope);
      }
      assert AtLeast(x.scope, x.scope);
      if |options| == |latests| { BatchTells(s, a, options, latests, |options|); }
    }
  }

  lemma {:induction false} StartIff(s: State, i: Id, a: Id)
    ensures CanStart(s, i, a) <==> May(s, EStart(i, a))
  {
    forall b ensures IsOf(s, b, i) <==> b in s.attempts && s.attempts[b].incidentId == i { }
  }

  lemma {:induction false} ConfirmIff(s: State, p: Id, now: Instant)
    ensures CanConfirm(s, p) <==> May(s, EConfirm(p, now))
  {
    if p in s.plans { LatestIff(s, s.plans[p].date, Some(p)); }
  }

  lemma {:induction false} ProposeIff(s: State, a: Id, p: Id, latest: Option<Id>, consistent: bool)
    ensures CanPropose(s, a, p, latest) <==> May(s, EPropose(a, p, latest, consistent))
  {
    if a in s.attempts && s.attempts[a].base in s.plans { LatestIff(s, s.plans[s.attempts[a].base].date, latest); }
  }

  lemma {:induction false} ModifyIff(s: State, a: Id, b: Id, last: Id, who: Id, now: Instant)
    ensures CanModify(s, a, b, last) <==> May(s, EModify(a, b, last, who, now))
  {
    ReviewIff(s, a);
    if a in s.attempts {
      LastIff(s, last, s.attempts[a].incidentId);
      ScopesWiden(s.attempts[a].scope, AllRemaining);
    }
  }

  predicate IsReview(e: Event) {
    e.EApprove? || e.EReject? || e.EModify? || e.EStartOptions? || e.EStoreOptions?
  }

  lemma {:induction false} ReviewEnabledIff(s: State, e: Event)
    requires IsReview(e)
    ensures Enabled(s, e) <==> May(s, e)
  {
    match e
    case EStartOptions(i, a, last, regenerate, now) => StartOptionsIff(s, i, a, last, regenerate, now);
    case EStoreOptions(a, options, latests, beyond) => StoreIff(s, a, options, latests, beyond);
    case EApprove(a, who, now) => ReviewIff(s, a);
    case EReject(a, who, now) => ReviewIff(s, a);
    case EModify(a, b, last, who, now) => ModifyIff(s, a, b, last, who, now);
  }

  /** A transaction goes through exactly in these states. */
  lemma {:induction false} EnabledIff(s: State, e: Event)
    ensures Enabled(s, e) <==> May(s, e)
  {
    if IsReview(e) {
      ReviewEnabledIff(s, e);
    } else {
      match e
      case EGenerate(date, latest, p, g, draft, now) => LatestIff(s, date, latest);
      case EConfirm(p, now) => ConfirmIff(s, p, now);
      case EStart(i, a) => StartIff(s, i, a);
      case EExpand(a, b) => ExpandIff(s, a, b);
      case EPropose(a, p, latest, consistent) => ProposeIff(s, a, p, latest, consistent);
      case _ =>
    }
  }

  // ----- the rows a transaction leaves behind -----

  ghost predicate OnlyPlansChange(s: State, t: State) {
    t.incidents == s.incidents && t.attempts == s.attempts && t.workers == s.workers && t.obstructed == s.obstructed
  }

  /** A new attempt that nothing is known of yet. */
  ghost predicate Blank(x: Attempt, i: Id, no: int, previous: Option<Id>, base: Id, scope: Scope) {
    && x.incidentId == i && x.no == no && x.previous == previous && x.base == base && x.scope == scope
    && x.status == Draft && x.solver == None && x.validation == None && x.candidate == None && x.verdict == None
    && !x.explained && !x.isOption
  }

  ghost predicate GeneratedTells(s: State, date: Date, latest: Option<Id>, p: Id, g: Id, draft: bool, now: Instant, t: State)
    requires latest.Some? ==> latest.value in s.plans
  {
    && OnlyPlansChange(s, t) && p in t.plans
    && t.plans[p] == Plan(date, if latest.Some? then s.plans[latest.value].group else g,
                          if latest.Some? then s.plans[latest.value].version + 1 else 1, latest,
                          if draft then PlanDraft else PlanCurrent, if draft then None else Some(now), None, true)
    && forall q :: q != p ==>
         && (q in t.plans <==> q in s.plans)
         && (q in s.plans ==>
              t.plans[q] == if draft && latest == Some(q) && s.plans[q].status == PlanDraft then s.plans[q].(status := PlanCancelled) else s.plans[q])
  }

  ghost predicate ConfirmedTells(s: State, p: Id, now: Instant, t: State)
    requires p in s.plans
  {
    && OnlyPlansChange(s, t) && OnlyRow(s.plans, t.plans, p)
    && t.plans[p] == s.plans[p].(status := PlanCurrent, activatedAt := Some(now))
  }

  ghost predicate ReportedTells(s: State, i: Id, p: Id, at: Instant, replan: bool, t: State) {
    && t.plans == s.plans && t.attempts == s.attempts && t.workers == s.workers && t.obstructed == s.obstructed
    && OnlyRow(s.incidents, t.incidents, i)
    && t.incidents[i] == if replan then Incident(p, at, Replanning, None) else Incident(p, at, Resolved, Some(at))
  }

  /** A reserved attempt and the worker that takes it up. */
  ghost predicate Reserved(s: State, t: State, b: Id, i: Id, no: int, previous: Option<Id>, base: Id, scope: Scope, forOptions: bool) {
    && b in t.attempts && Blank(t.attempts[b], i, no, previous, base, scope)
    && b in t.workers && t.workers[b] == Solving(forOptions)
    && forall w :: w != b && w in t.workers ==> w in s.workers && t.workers[w] == s.workers[w]
  }

  ghost predicate StartedTells(s: State, i: Id, a: Id, t: State)
    requires i in s.incidents
  {
    && t.plans == s.plans && t.incidents == s.incidents && t.obstructed == s.obstructed
    && OnlyRow(s.attempts, t.attempts, a) && OnlyRow(s.workers, t.workers, a)
    && Reserved(s, t, a, i, 1, None, s.incidents[i].planId, AffectedRoute, false)
  }

  /** The outcome is on record, and the worker is gone or goes on to widen the scope. */
  ghost predicate OutcomeTells(s: State, a: Id, outcome: SolverOutcome, validation: Option<Validation>, widens: bool, t: State)
    requires a in s.attempts
  {
    && t.plans == s.plans && t.incidents == s.incidents && t.obstructed == s.obstructed
    && OnlyRow(s.attempts, t.attempts, a)
    && t.attempts[a] == s.attempts[a].(solver := Some(outcome), validation := validation)
    && if widens then OnlyRow(s.workers, t.workers, a) && t.workers[a] == Expanding else RowGone(s.workers, t.workers, a)
  }

  ghost predicate ExpandedTells(s: State, a: Id, b: Id, t: State)
    requires a in s.attempts
  {
    var x := s.attempts[a];
    && t.plans == s.plans && t.incidents == s.incidents && t.obstructed == s.obstructed
    && OnlyRow(s.attempts, t.attempts, b) && (a != b ==> a !in t.workers)
    && (forall w :: w in s.workers && w != a && w != b ==> w in t.workers)
    && exists scope :: Widens(x.scope, scope) && Reserved(s, t, b, x.incidentId, x.no + 1, Some(a), x.base, scope, false)
  }

  ghost predicate ProposedTells(s: State, a: Id, p: Id, latest: Id, consistent: bool, t: State)
    requires a in s.attempts && s.attempts[a].base in s.plans && latest in s.plans && s.attempts[a].incidentId in s.incidents
  {
    var x := s.attempts[a];
    var base := s.plans[x.base];
    && t.obstructed == s.obstructed && RowGone(s.workers, t.workers, a)
    && OnlyRow(s.plans, t.plans, p)
    && t.plans[p] == Plan(base.date, base.group, s.plans[latest].version + 1, Some(x.base), PlanCandidate, None, None, consistent)
    && OnlyRow(s.attempts, t.attempts, a)
    && t.attempts[a] == x.(candidate := Some(p), status := PendingReview, solver := Some(OutcomeFeasible), validation := Some(Valid),
                           explained := true, isOption := false)
    && OnlyRow(s.incidents, t.incidents, x.incidentId)
    && t.incidents[x.incidentId] == s.incidents[x.incidentId].(status := Review)
  }

  // ----- decisions -----

  /** Another option of the incident that is under review. */
  ghost predicate IsSibling(s: State, a: Id, b: Id) {
    && a in s.attempts && s.attempts[a].isOption && b != a
    && IsOf(s, b, s.attempts[a].incidentId) && s.attempts[b].status == PendingReview
  }

  ghost predicate PlanOfSibling(s: State, a: Id, p: Id) {
    exists b :: IsSibling(s, a, b) && s.attempts[b].candidate == Some(p)
  }

  ghost predicate IncidentNow(s: State, t: State, i: Id, status: IncidentStatus, resolvedAt: Option<Instant>)
    requires i in s.incidents
  {
    OnlyRow(s.incidents, t.incidents, i) && t.incidents[i] == s.incidents[i].(status := status, resolvedAt := resolvedAt)
  }

  /** The candidate takes the place of its base, every other option is turned down, and the incident is over. */
  ghost predicate ApprovedTells(s: State, a: Id, who: Id, now: Instant, t: State)
    requires UnderReview(s, a)
  {
    var x := s.attempts[a];
    && t.workers == s.workers && t.obstructed == s.obstructed
    && IncidentNow(s, t, x.incidentId, Resolved, Some(now))
    && t.attempts.Keys == s.attempts.Keys && t.plans.Keys == s.plans.Keys
    && (forall b :: b in s.attempts ==>
         t.attempts[b] == if b == a then x.(status := Decided, verdict := Some(Verdict(Approve, who, now)))
                          else if IsSibling(s, a, b) then s.attempts[b].(status := Decided, verdict := Some(Verdict(Reject, who, now)))
                          else s.attempts[b])
    && forall p :: p in s.plans ==>
         && (p == x.base && !PlanOfSibling(s, a, p) ==> t.plans[p] == s.plans[p].(status := PlanSuperseded, supersededAt := Some(now)))
         && (Some(p) == x.candidate && !PlanOfSibling(s, a, p) ==> t.plans[p] == s.plans[p].(status := PlanCurrent, activatedAt := Some(now)))
         && (PlanOfSibling(s, a, p) ==> t.plans[p].status == PlanCancelled)
         && (p != x.base && Some(p) != x.candidate ==>
              t.plans[p] == if PlanOfSibling(s, a, p) then s.plans[p].(status := PlanCancelled) else s.plans[p])
  }

  /** Only this candidate is turned down; the incident stays under review while another option is. */
  ghost predicate RejectedTells(s: State, a: Id, who: Id, now: Instant, t: State)
    requires UnderReview(s, a)
  {
    var x := s.attempts[a];
    && t.workers == s.workers && t.obstructed == s.obstructed
    && OnlyRow(s.attempts, t.attempts, a) && t.attempts[a] == x.(status := Decided, verdict := Some(Verdict(Reject, who, now)))
    && OnlyRow(s.plans, t.plans, x.candidate.value) && t.plans[x.candidate.value] == s.plans[x.candidate.value].(status := PlanCancelled)
    && IncidentNow(s, t, x.incidentId, if exists b :: IsSibling(s, a, b) then Review else Assessing, s.incidents[x.incidentId].resolvedAt)
  }

  /** All options are turned down, this one for a modification. */
  ghost predicate TurnedDown(s: State, a: Id, next: Id, who: Id, now: Instant, t: State)
    requires UnderReview(s, a)
  {
    var x := s.attempts[a];
    && t.plans.Keys == s.plans.Keys
    && (forall b :: b != next ==> (b in t.attempts <==> b in s.attempts))
    && (forall b :: b in s.attempts && b != next ==>
         t.attempts[b] == if b == a then x.(status := Decided, verdict := Some(Verdict(Modify, who, now)))
                          else if IsSibling(s, a, b) then s.attempts[b].(status := Decided, verdict := Some(Verdict(Reject, who, now)))
                          else s.attempts[b])
    && forall p :: p in s.plans ==>
         t.plans[p] == if Some(p) == x.candidate || PlanOfSibling(s, a, p) then s.plans[p].(status := PlanCancelled) else s.plans[p]
  }

  /** And the next attempt is reserved in the wider scope. */
  ghost predicate ModifiedTells(s: State, a: Id, next: Id, last: Id, who: Id, now: Instant, t: State)
    requires UnderReview(s, a) && last in s.attempts
  {
    var x := s.attempts[a];
    && t.obstructed == s.obstructed && OnlyRow(s.workers, t.workers, next)
    && IncidentNow(s, t, x.incidentId, Replanning, s.incidents[x.incidentId].resolvedAt)
    && (exists scope :: Widens(x.scope, scope)
         && Reserved(s, t, next, x.incidentId, s.attempts[last].no + 1, Some(a), x.base, scope, x.isOption))
    && TurnedDown(s, a, next, who, now, t)
  }

  // ----- options -----

  ghost predicate IsPending(s: State, i: Id, b: Id) {
    IsOf(s, b, i) && s.attempts[b].status == PendingReview
  }

  ghost predicate PlanPending(s: State, i: Id, p: Id) {
    exists b :: IsPending(s, i, b) && s.attempts[b].candidate == Some(p)
  }

  /** What is under review is turned down by the system. */
  ghost predicate PendingTurnedDown(s: State, i: Id, a: Id, now: Instant, t: State) {
    && t.plans.Keys == s.plans.Keys
    && (forall b :: b != a ==> (b in t.attempts <==> b in s.attempts))
    && (forall b :: b in s.attempts && b != a ==>
         t.attempts[b] == if IsPending(s, i, b) then s.attempts[b].(status := Decided, verdict := Some(Verdict(Reject, 0, now))) else s.attempts[b])
    && forall p :: p in s.plans ==> t.plans[p] == if PlanPending(s, i, p) then s.plans[p].(status := PlanCancelled) else s.plans[p]
  }

  /** And the next attempt is reserved in the narrowest scope. */
  ghost predicate OptionsStartedTells(s: State, i: Id, a: Id, last: Option<Id>, now: Instant, t: State)
    requires i in s.incidents && (last.Some? ==> last.value in s.attempts)
  {
    && t.obstructed == s.obstructed && OnlyRow(s.workers, t.workers, a)
    && IncidentNow(s, t, i, Replanning, s.incidents[i].resolvedAt)
    && Reserved(s, t, a, i, if last.Some? then s.attempts[last.value].no + 1 else 1, last, s.incidents[i].planId, AffectedRoute, true)
    && PendingTurnedDown(s, i, a, now, t)
  }

  lemma {:induction false} PlanningTells(s: State, e: Event)
    requires Enabled(s, e)
    ensures match e
            case EGenerate(date, latest, p, g, draft, now) => GeneratedTells(s, date, latest, p, g, draft, now, Apply(s, e))
            case EConfirm(p, now) => ConfirmedTells(s, p, now, Apply(s, e))
            case EReport(i, p, at, replan) => ReportedTells(s, i, p, at, replan, Apply(s, e))
            case EFacts(obstructed) => Apply(s, e) == s.(obstructed := obstructed)
            case _ => true
  {
  }

  /** The work on an attempt. */
  lemma {:induction false} WorkTells(s: State, e: Event)
    requires Enabled(s, e)
    ensures match e
            case EStart(i, a) => StartedTells(s, i, a, Apply(s, e))
            case EInfeasible(a) => OutcomeTells(s, a, OutcomeInfeasible, s.attempts[a].validation, s.attempts[a].scope != AllRemaining, Apply(s, e))
            case EError(a) => OutcomeTells(s, a, OutcomeError, s.attempts[a].validation, false, Apply(s, e))
            case EInvalid(a) => OutcomeTells(s, a, OutcomeFeasible, Some(Invalid), false, Apply(s, e))
            case EAbandon(a) => Apply(s, e) == s.(workers := Apply(s, e).workers) && RowGone(s.workers, Apply(s, e).workers, a)
            case _ => true
  {
  }

  lemma {:induction false} ExpandTells(s: State, a: Id, b: Id)
    requires CanExpand(s, a, b)
    ensures ExpandedTells(s, a, b, Expanded(s, a, b))
  {
    var x := s.attempts[a];
    ScopesWiden(x.scope, NextScope(x.scope).value);
    assert Reserved(s, Expanded(s, a, b), b, x.incidentId, x.no + 1, Some(a), x.base, NextScope(x.scope).value, false);
  }

  lemma {:induction false} ProposeTells(s: State, a: Id, p: Id, latest: Option<Id>, consistent: bool)
    requires CanPropose(s, a, p, latest)
    ensures ProposedTells(s, a, p, latest.value, consistent, Proposed(s, a, p, latest, consistent))
  {
  }

  lemma {:induction false} SiblingsAre(s: State, t: State, a: Id)
    requires a in s.attempts && t.attempts.Keys == s.attempts.Keys
    requires forall b :: b in s.attempts && b != a ==> t.attempts[b] == s.attempts[b]
    requires t.attempts[a].incidentId == s.attempts[a].incidentId && t.attempts[a].isOption == s.attempts[a].isOption
    ensures s.attempts[a].isOption ==> forall b :: b in PendingOf(t, s.attempts[a].incidentId, {a}) <==> IsSibling(s, a, b)
    ensures !s.attempts[a].isOption ==> forall b :: !IsSibling(s, a, b)
  {
  }

  /** The plan of one of these attempts. */
  ghost predicate PlanAmong(attempts: map<Id, Attempt>, closing: set<Id>, p: Id) {
    exists b :: b in closing && b in attempts && attempts[b].candidate == Some(p)
  }

  lemma {:induction false} SiblingPlansAre(s: State, t: State, a: Id, p: Id)
    requires a in s.attempts && t.attempts.Keys == s.attempts.Keys
    requires forall b :: b in s.attempts && b != a ==> t.attempts[b] == s.attempts[b]
    requires t.attempts[a].incidentId == s.attempts[a].incidentId && t.attempts[a].isOption == s.attempts[a].isOption
    ensures s.attempts[a].isOption && PlanAmong(t.attempts, PendingOf(t, s.attempts[a].incidentId, {a}), p) <==> PlanOfSibling(s, a, p)
  {
    SiblingsAre(s, t, a);
    if b :| IsSibling(s, a, b) && s.attempts[b].candidate == Some(p) { assert t.attempts[b].candidate == Some(p); }
  }

  /** What closing the siblings does to the tables. */
  lemma {:induction false} SiblingsClosedTell(s: State, t: State, a: Id, v: Verdict)
    requires a in s.attempts && t.attempts.Keys == s.attempts.Keys
    requires forall b :: b in s.attempts && b != a ==> t.attempts[b] == s.attempts[b]
    requires t.attempts[a].incidentId == s.attempts[a].incidentId && t.attempts[a].isOption == s.attempts[a].isOption
    ensures var u := SiblingsClosed(t, a, v);
            && u == t.(plans := u.plans, attempts := u.attempts) && u.attempts.Keys == s.attempts.Keys && u.plans.Keys == t.plans.Keys
            && (forall b :: b in s.attempts ==>
                 u.attempts[b] == if IsSibling(s, a, b) then s.attempts[b].(status := Decided, verdict := Some(v)) else t.attempts[b])
            && forall p :: p in t.plans ==>
                 u.plans[p] == if PlanOfSibling(s, a, p) then t.plans[p].(status := PlanCancelled) else t.plans[p]
  {
    SiblingsAre(s, t, a);
    forall p: Id ensures s.attempts[a].isOption && PlanAmong(t.attempts, PendingOf(t, s.attempts[a].incidentId, {a}), p) <==> PlanOfSibling(s, a, p) {
      SiblingPlansAre(s, t, a, p);
    }
  }

  lemma {:induction false} ApproveTells(s: State, a: Id, who: Id, now: Instant)
    requires CanApprove(s, a, now)
    ensures UnderReview(s, a) && ApprovedTells(s, a, who, now, Approved(s, a, who, now))
  {
    ReviewIff(s, a);
    SiblingsClosedTell(s, ApprovedOne(s, a, Verdict(Approve, who, now)), a, Verdict(Reject, who, now));
  }

  lemma {:induction false} RejectTells(s: State, a: Id, who: Id, now: Instant)
    requires Reviewable(s, a)
    ensures UnderReview(s, a) && RejectedTells(s, a, who, now, Rejected(s, a, who, now))
  {
    ReviewIff(s, a);
    SiblingsAre(s, s, a);
    if PendingOf(s, s.attempts[a].incidentId, {a}) != {} {
      var b :| b in PendingOf(s, s.attempts[a].incidentId, {a});
    }
  }

  lemma {:induction false} ModifyTurnsDown(s: State, a: Id, next: Id, last: Id, who: Id, now: Instant)
    requires CanModify(s, a, next, last) && UnderReview(s, a)
    ensures TurnedDown(s, a, next, who, now, Modified(s, a, next, last, who, now))
  {
    SiblingsClosedTell(s, DeclinedOne(s, a, Verdict(Modify, who, now), Replanning), a, Verdict(Reject, who, now));
  }

  lemma {:induction false} ModifyTells(s: State, a: Id, next: Id, last: Id, who: Id, now: Instant)
    requires CanModify(s, a, next, last)
    ensures UnderReview(s, a) && ModifiedTells(s, a, next, last, who, now, Modified(s, a, next, last, who, now))
  {
    ReviewIff(s, a);
    ModifyTurnsDown(s, a, next, last, who, now);
    var x := s.attempts[a];
    ScopesWiden(x.scope, NextScope(x.scope).value);
    assert Reserved(s, Modified(s, a, next, last, who, now), next, x.incidentId, s.attempts[last].no + 1, Some(a), x.base, NextScope(x.scope).value, x.isOption);
  }

  lemma {:induction false} PendingPlansAre(s: State, i: Id, p: Id)
    ensures PlanAmong(s.attempts, PendingOf(s, i, {}), p) <==> PlanPending(s, i, p)
  {
    if b :| IsPending(s, i, b) && s.attempts[b].candidate == Some(p) { assert b in PendingOf(s, i, {}); }
  }

  lemma {:induction false} StartTurnsDown(s: State, i: Id, a: Id, last: Option<Id>, regenerate: bool, now: Instant)
    requires CanStartOptions(s, i, a, last, regenerate)
    ensures PendingTurnedDown(s, i, a, now, OptionsStarted(s, i, a, last, regenerate, now))
  {
    forall p: Id ensures PlanAmong(s.attempts, PendingOf(s, i, {}), p) <==> PlanPending(s, i, p) { PendingPlansAre(s, i, p); }
  }

  lemma {:induction false} StartOptionsTells(s: State, i: Id, a: Id, last: Option<Id>, regenerate: bool, now: Instant)
    requires CanStartOptions(s, i, a, last, regenerate)
    ensures OptionsStartedTells(s, i, a, last, now, OptionsStarted(s, i, a, last, regenerate, now))
  {
    StartTurnsDown(s, i, a, last, regenerate, now);
  }

  ghost predicate StoredOption(s: State, a: Id, options: seq<Option_>, latest: Id, beyond: set<Id>, plans: map<Id, Plan>,
                              attempts: map<Id, Attempt>, k: int)
    requires a in s.attempts && s.attempts[a].base in s.plans && latest in s.plans && 0 <= k < |options|
  {
    var b, p := options[k].attemptId, options[k].planId;
    && b in attempts && p in plans
    && OptionAttempt(s, a, options, attempts[b].(status := PendingReview), k)
    && OptionPlan(s, a, options, latest, plans[p].(status := PlanCandidate), k)
    && attempts[b].status == (if b in beyond then Draft else PendingReview)
    && plans[p].status == if b in beyond then PlanCancelled else PlanCandidate
  }

  /** The options are there, those beyond the limit on record only, and everything else is as it was. */
  ghost predicate RowsStored(s: State, a: Id, options: seq<Option_>, latest: Id, beyond: set<Id>, plans: map<Id, Plan>, attempts: map<Id, Attempt>)
    requires a in s.attempts && s.attempts[a].base in s.plans && latest in s.plans
  {
    var n := |options|;
    && (forall p :: p in plans <==> p in s.plans || IsOptionPlan(options, n, p))
    && (forall b :: b in attempts <==> b in s.attempts || IsOptionAttempt(options, n, b))
    && (forall k :: 0 <= k < n ==> StoredOption(s, a, options, latest, beyond, plans, attempts, k))
    && (forall b :: b in s.attempts && !IsOptionAttempt(options, n, b) ==> b in attempts && attempts[b] == s.attempts[b])
    && forall p :: p in s.plans ==> p in plans && plans[p] == s.plans[p]
  }

  /** The tables after a batch: without options the attempt is infeasible, otherwise they are under review. */
  ghost predicate StoredTells(s: State, a: Id, options: seq<Option_>, latests: seq<Option<Id>>, beyond: set<Id>, t: State)
    requires MayStore(s, a, options, latests, beyond)
  {
    var i := s.attempts[a].incidentId;
    && t.obstructed == s.obstructed && RowGone(s.workers, t.workers, a)
    && if options == [] then
         && t.plans == s.plans && IncidentNow(s, t, i, Assessing, s.incidents[i].resolvedAt)
         && OnlyRow(s.attempts, t.attempts, a) && t.attempts[a] == s.attempts[a].(solver := Some(OutcomeInfeasible))
       else
         && IncidentNow(s, t, i, Review, s.incidents[i].resolvedAt)
         && RowsStored(s, a, options, latests[0].value, beyond, t.plans, t.attempts)
  }

  /** The plan of an option beyond the limit. */
  ghost predicate BeyondPlan(options: seq<Option_>, beyond: set<Id>, p: Id) {
    exists k :: 0 <= k < |options| && options[k].planId == p && options[k].attemptId in beyond
  }

  lemma {:induction false} CandidatesAre(s: State, a: Id, options: seq<Option_>, attempts: map<Id, Attempt>, beyond: set<Id>, p: Id)
    requires a in s.attempts && AttemptsTell(s, a, options, |options|, attempts)
    requires forall b :: b in beyond ==> IsOptionAttempt(options, |options|, b)
    ensures PlanAmong(attempts, beyond, p) <==> BeyondPlan(options, beyond, p)
  {
    forall k | 0 <= k < |options| ensures attempts[options[k].attemptId].candidate == Some(options[k].planId) {
      assert OptionAttempt(s, a, options, attempts[options[k].attemptId], k);
    }
    if c :| c in beyond && c in attempts && attempts[c].candidate == Some(p) {
      assert IsOptionAttempt(options, |options|, c);
      var j :| 0 <= j < |options| && options[j].attemptId == c;
      assert options[j].planId == p;
    }
    if k :| 0 <= k < |options| && options[k].planId == p && options[k].attemptId in beyond {
      assert attempts[options[k].attemptId].candidate == Some(p);
    }
  }

  lemma {:induction false} OptionIsStored(s: State, a: Id, options: seq<Option_>, latests: seq<Option<Id>>, beyond: set<Id>, t: State, k: nat)
    requires a in s.attempts && 0 < |options| == |latests| && Storable(s, a, options, latests, |options|)
    requires OptionsTell(s, a, options, latests, |options|, t) && k < |options|
    requires PlanAmong(t.attempts, beyond, options[k].planId) <==> options[k].attemptId in beyond
    ensures StoredOption(s, a, options, latests[0].value, beyond, Filtered(t, beyond).plans, Filtered(t, beyond).attempts, k)
  {
    assert OptionAttempt(s, a, options, t.attempts[options[k].attemptId], k);
    assert OptionPlan(s, a, options, latests[0].value, t.plans[options[k].planId], k);
  }

  /** Only the plans of options beyond the limit are cancelled. */
  lemma {:induction false} CutOffTells(s: State, a: Id, options: seq<Option_>, latests: seq<Option<Id>>, beyond: set<Id>, t: State)
    requires a in s.attempts && 0 < |options| == |latests| && Storable(s, a, options, latests, |options|)
    requires OptionsTell(s, a, options, latests, |options|, t)
    requires forall b :: b in beyond ==> IsOptionAttempt(options, |options|, b)
    ensures forall k :: 0 <= k < |options| ==> (PlanAmong(t.attempts, beyond, options[k].planId) <==> options[k].attemptId in beyond)
    ensures forall p :: p in s.plans ==> !PlanAmong(t.attempts, beyond, p)
  {
    forall k | 0 <= k < |options| ensures PlanAmong(t.attempts, beyond, options[k].planId) <==> options[k].attemptId in beyond {
      CandidatesAre(s, a, options, t.attempts, beyond, options[k].planId);
    }
    forall p | p in s.plans ensures !PlanAmong(t.attempts, beyond, p) {
      CandidatesAre(s, a, options, t.attempts, beyond, p);
    }
  }

  lemma {:induction false} FilteredTells(s: State, a: Id, options: seq<Option_>, latests: seq<Option<Id>>, beyond: set<Id>, t: State)
    requires a in s.attempts && 0 < |options| == |latests| && Storable(s, a, options, latests, |options|)
    requires OptionsTell(s, a, options, latests, |options|, t)
    requires forall b :: b in beyond ==> IsOptionAttempt(options, |options|, b)
    ensures RowsStored(s, a, options, latests[0].value, beyond, Filtered(t, beyond).plans, Filtered(t, beyond).attempts)
  {
    var u := Filtered(t, beyond);
    CutOffTells(s, a, options, latests, beyond, t);
    forall k | 0 <= k < |options| ensures StoredOption(s, a, options, latests[0].value, beyond, u.plans, u.attempts, k) {
      OptionIsStored(s, a, options, latests, beyond, t, k);
    }
    forall b | b in s.attempts && !IsOptionAttempt(options, |options|, b) ensures b in u.attempts && u.attempts[b] == s.attempts[b] {
      assert IsOptionAttempt(options, |options|, a) by { assert options[0].attemptId == a; }
    }
    forall p | p in s.plans ensures p in u.plans && u.plans[p] == s.plans[p] {
      assert !PlanAmong(t.attempts, beyond, p);
    }
  }

  lemma {:induction false} BatchIsStored(s: State, a: Id, options: seq<Option_>, latests: seq<Option<Id>>, beyond: set<Id>)
    requires a in s.attempts && 0 < |options| == |latests| && Storable(s, a, options, latests, |options|)
    requires forall b :: b in beyond ==> exists k :: 0 <= k < |options| && options[k].attemptId == b
    ensures OptionsAdded(s, a, options, latests, |options|).Some?
    ensures var t := Filtered(OptionsAdded(s, a, options, latests, |options|).value, beyond);
            && t.incidents == s.incidents && t.workers == s.workers && t.obstructed == s.obstructed
            && RowsStored(s, a, options, latests[0].value, beyond, t.plans, t.attempts)
  {
    BatchTells(s, a, options, latests, |options|);
    forall b | b in beyond ensures IsOptionAttempt(options, |options|, b) { }
    FilteredTells(s, a, options, latests, beyond, OptionsAdded(s, a, options, latests, |options|).value);
  }

  lemma {:induction false} EmptyBatch(s: State, a: Id, latests: seq<Option<Id>>, beyond: set<Id>)
    requires CanStoreOptions(s, a, [], latests, beyond) && MayStore(s, a, [], latests, beyond)
    ensures StoredTells(s, a, [], latests, beyond, OptionsStored(s, a, [], latests, beyond))
  {
  }

  lemma {:induction false} FullBatch(s: State, a: Id, options: seq<Option_>, latests: seq<Option<Id>>, beyond: set<Id>)
    requires CanStoreOptions(s, a, options, latests, beyond) && MayStore(s, a, options, latests, beyond) && options != []
    ensures StoredTells(s, a, options, latests, beyond, OptionsStored(s, a, options, latests, beyond))
  {
    BatchIsStored(s, a, options, latests, beyond);
    var t := OptionsStored(s, a, options, latests, beyond);
    assert RowGone(s.workers, t.workers, a) && t.obstructed == s.obstructed;
    assert IncidentNow(s, t, s.attempts[a].incidentId, Review, s.incidents[s.attempts[a].incidentId].resolvedAt);
  }

  lemma {:induction false} StoreTells(s: State, a: Id, options: seq<Option_>, latests: seq<Option<Id>>, beyond: set<Id>)
    requires CanStoreOptions(s, a, options, latests, beyond)
    ensures MayStore(s, a, options, latests, beyond)
    ensures StoredTells(s, a, options, latests, beyond, OptionsStored(s, a, options, latests, beyond))
  {
    StoreIff(s, a, options, latests, beyond);
    if options == [] { EmptyBatch(s, a, latests, beyond); } else { FullBatch(s, a, options, latests, beyond); }
  }
}

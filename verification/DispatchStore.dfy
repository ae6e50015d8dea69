/** The transactions as they are carried out: rows are read, checked and overwritten one field at a
    time.  Every method ends in the state its transaction prescribes, or changes nothing. */
module DispatchStore {
  import opened Ordering
  import opened Domain
  import opened Protocol
  import opened ProtocolLaws
  import opened ProtocolRuns
  import opened ProtocolHistory

  // ----- closing one more sibling -----

  predicate Cancellable(s: State, closing: set<Id>) {
    forall c :: c in closing ==> c in s.attempts && s.attempts[c].candidate.Some? && s.attempts[c].candidate.value in s.plans
  }

  /** One row and its plan. */
  function ClosedOne(s: State, c: Id, v: Verdict): State
    requires Cancellable(s, {c})
  {
    var p := s.attempts[c].candidate.value;
    s.(plans := s.plans[p := s.plans[p].(status := PlanCancelled)], attempts := s.attempts[c := WithVerdict(s.attempts[c], v)])
  }

  lemma {:induction false} CancelOneMore(s: State, done: set<Id>, c: Id, p: Id)
    requires c in s.attempts && s.attempts[c].candidate == Some(p) && p in s.plans
    ensures p in CancelledPlans(s.plans, s.attempts, done)
    ensures CancelledPlans(s.plans, s.attempts, done + {c})
            == CancelledPlans(s.plans, s.attempts, done)[p := CancelledPlans(s.plans, s.attempts, done)[p].(status := PlanCancelled)]
  {
    var after, before := CancelledPlans(s.plans, s.attempts, done + {c}), CancelledPlans(s.plans, s.attempts, done);
    forall q | q in s.plans ensures after[q] == if q == p then before[p].(status := PlanCancelled) else before[q] {
      assert c in done + {c};
      if a :| a in done && a in s.attempts && s.attempts[a].candidate == Some(q) { assert a in done + {c}; }
    }
  }

  /** Closing one more is closing it on top of what was closed already. */
  lemma {:induction false} CloseOneMore(s: State, done: set<Id>, c: Id, v: Verdict)
    requires Cancellable(s, {c})
    ensures Cancellable(Closed(s, done, v), {c}) && Closed(s, done + {c}, v) == ClosedOne(Closed(s, done, v), c, v)
  {
    CancelOneMore(s, done, c, s.attempts[c].candidate.value);
    var before := ClosedAttempts(s.attempts, done, v);
    assert before[c].candidate == s.attempts[c].candidate;
    assert ClosedAttempts(s.attempts, done + {c}, v) == before[c := WithVerdict(before[c], v)];
  }

  lemma {:induction false} CloseNone(s: State, v: Verdict)
    ensures Closed(s, {}, v) == s
  {
  }

  /** The first by number among these attempts. */
  ghost predicate FirstByNumber(attempts: map<Id, Attempt>, from: set<Id>, a: Id) {
    a in from && forall b :: b in from && b in attempts && a in attempts ==> attempts[a].no <= attempts[b].no
  }

  ghost predicate NotAfter(attempts: map<Id, Attempt>, a: Id, b: Id) {
    a in attempts && b in attempts && attempts[a].no <= attempts[b].no
  }

  ghost predicate ByNumber(attempts: map<Id, Attempt>, s: seq<Id>) {
    forall i, j :: 0 <= i < j < |s| ==> NotAfter(attempts, s[i], s[j])
  }

  method FindFirst(attempts: map<Id, Attempt>, from: set<Id>) returns (a: Id)
    requires from != {} && from <= attempts.Keys
    ensures FirstByNumber(attempts, from, a)
  {
    a :| a in from;
    var rest := from;
    while rest != {}
      invariant rest <= from && a in from
      invariant forall b :: b in from && b !in rest ==> attempts[a].no <= attempts[b].no
      decreases |rest|
    {
      var b :| b in rest;
      rest := rest - {b};
      if attempts[b].no < attempts[a].no { a := b; }
    }
  }

  /** The last attempt of an incident, `attempts[-1]`. */
  method FindLastAttempt(s: State, i: Id) returns (last: Option<Id>)
    ensures last.Some? ==> IsLastAttempt(s, last.value, i)
    ensures last == None ==> forall b :: b in s.attempts ==> s.attempts[b].incidentId != i
  {
    last := None;
    var rest := s.attempts.Keys;
    while rest != {}
      invariant rest <= s.attempts.Keys
      invariant last == None ==> forall b :: b in s.attempts && b !in rest ==> s.attempts[b].incidentId != i
      invariant last.Some? ==> Of(s, last.value, i)
      invariant last.Some? ==>
                  forall b :: b in s.attempts && b !in rest && s.attempts[b].incidentId == i ==> s.attempts[b].no <= s.attempts[last.value].no
      decreases |rest|
    {
      var b :| b in rest;
      rest := rest - {b};
      if s.attempts[b].incidentId == i && (last == None || s.attempts[last.value].no < s.attempts[b].no) {
        last := Some(b);
      }
    }
  }

  /** `get_latest_plan_for_business_date`. */
  method FindLatestPlan(s: State, date: Date) returns (latest: Option<Id>)
    ensures IsLatest(s, date, latest)
  {
    latest := None;
    var rest := s.plans.Keys;
    while rest != {}
      invariant rest <= s.plans.Keys
      invariant latest == None ==> forall p :: p in s.plans && p !in rest ==> s.plans[p].date != date
      invariant latest.Some? ==> OnDate(s, latest.value, date)
      invariant latest.Some? ==>
                  forall p :: p in s.plans && p !in rest && s.plans[p].date == date ==> s.plans[p].version <= s.plans[latest.value].version
      decreases |rest|
    {
      var p :| p in rest;
      rest := rest - {p};
      if s.plans[p].date == date && (latest == None || s.plans[latest.value].version < s.plans[p].version) {
        latest := Some(p);
      }
    }
  }

  /** The attempts listed so far, by number, and those left, which come later. */
  ghost predicate ListedSoFar(attempts: map<Id, Attempt>, from: set<Id>, rest: set<Id>, listed: seq<Id>) {
    && rest <= from <= attempts.Keys && ByNumber(attempts, listed)
    && (forall c :: c in listed <==> c in from && c !in rest)
    && (forall c, d {:trigger NotAfter(attempts, c, d)} :: c in listed && d in rest ==> NotAfter(attempts, c, d))
  }

  /** These attempts and no others, each once, by number. */
  ghost predicate Lists(attempts: map<Id, Attempt>, from: set<Id>, listed: seq<Id>) {
    ByNumber(attempts, listed) && (forall c :: c in listed <==> c in from) && |listed| == |from|
  }

  lemma {:induction false} NumbersGrow(attempts: map<Id, Attempt>, listed: seq<Id>, c: Id)
    requires ByNumber(attempts, listed) && c in attempts
    requires forall d :: d in listed ==> NotAfter(attempts, d, c)
    ensures ByNumber(attempts, listed + [c])
  {
    forall i | 0 <= i < |listed| ensures NotAfter(attempts, listed[i], c) {
      assert listed[i] in listed;
    }
  }

  lemma {:induction false} ListOneMore(attempts: map<Id, Attempt>, from: set<Id>, rest: set<Id>, listed: seq<Id>, c: Id)
    requires ListedSoFar(attempts, from, rest, listed) && FirstByNumber(attempts, rest, c)
    ensures ListedSoFar(attempts, from, rest - {c}, listed + [c])
  {
    NumbersGrow(attempts, listed, c);
  }

  /** `ORDER BY attempt_no`. */
  method ListByNumber(attempts: map<Id, Attempt>, from: set<Id>) returns (listed: seq<Id>)
    requires from <= attempts.Keys
    ensures Lists(attempts, from, listed)
  {
    listed := [];
    var rest := from;
    while rest != {}
      invariant ListedSoFar(attempts, from, rest, listed) && |listed| + |rest| == |from|
      decreases |rest|
    {
      var c := FindFirst(attempts, rest);
      ListOneMore(attempts, from, rest, listed, c);
      listed := listed + [c];
      rest := rest - {c};
    }
  }

  lemma {:induction false} AllClosingKnown(s: State, i: Id, closing: set<Id>)
    requires Paired(s) && AllPending(s, i, closing)
    ensures closing <= s.attempts.Keys && Cancellable(s, closing)
  {
    forall c | c in closing ensures c in s.attempts && s.attempts[c].candidate.Some? && s.attempts[c].candidate.value in s.plans {
      assert Pending(s, c, i);
    }
  }

  /** The body of the loop of `_close_siblings`. */
  method CloseSibling(s: State, sibling: Id, v: Verdict) returns (t: State)
    requires Cancellable(s, {sibling})
    ensures t == ClosedOne(s, sibling, v)
  {
    t := s;
    var planId := t.attempts[sibling].candidate.value;
    t := t.(plans := t.plans[planId := t.plans[planId].(status := PlanCancelled)]);
    t := t.(attempts := t.attempts[sibling := t.attempts[sibling].(status := Decided, verdict := Some(v))]);
  }

  /** The loop of `_close_siblings` over these attempts. */
  method CloseListed(s: State, listed: seq<Id>, v: Verdict) returns (t: State)
    requires Cancellable(s, Elements(listed))
    ensures t == Closed(s, Elements(listed), v)
  {
    t := s;
    CloseNone(s, v);
    assert Elements(listed[..0]) == {};
    var k := 0;
    while k < |listed|
      invariant 0 <= k <= |listed| && t == Closed(s, Elements(listed[..k]), v)
    {
      assert listed[k] in Elements(listed);
      assert Elements(listed[..k + 1]) == Elements(listed[..k]) + {listed[k]};
      CloseOneMore(s, Elements(listed[..k]), listed[k], v);
      t := CloseSibling(t, listed[k], v);
      k := k + 1;
    }
    assert listed[..|listed|] == listed;
  }

  /** `_close_siblings` over these attempts; the closed ones are listed by their numbers. */
  method CloseAll(s: State, i: Id, closing: set<Id>, v: Verdict) returns (t: State, closed: seq<Id>)
    requires Paired(s) && AllPending(s, i, closing)
    ensures t == Closed(s, closing, v) && Lists(s.attempts, closing, closed)
  {
    AllClosingKnown(s, i, closing);
    closed := ListByNumber(s.attempts, closing);
    assert Elements(closed) == closing;
    t := CloseListed(s, closed, v);
  }

  class DispatchStore {
    var plans: map<Id, Plan>
    var incidents: map<Id, Incident>
    var attempts: map<Id, Attempt>
    var workers: map<Id, Worker>
    var obstructed: set<(Id, Scope)>

    constructor ()
      ensures View() == EMPTY && Inv(View())
    {
      plans, incidents, attempts, workers, obstructed := map[], map[], map[], map[], {};
      new;
      EmptyIsOk();
    }

    function View(): State
      reads this
    {
      State(plans, incidents, attempts, workers, obstructed)
    }

    // ----- planning -----

    /** `_generate`, once solved and validated: refused while the date has a current plan. */
    method Generate(date: Date, p: Id, newGroup: Id, draft: bool, now: Instant) returns (ok: bool, ghost latest: Option<Id>)
      requires p !in plans
      modifies this
      ensures IsLatest(old(View()), date, latest) && ok == !HasCurrent(old(View()), date)
      ensures View() == Step(old(View()), EGenerate(date, latest, p, newGroup, draft, now))
    {
      var found := FindLatestPlan(View(), date);
      latest := found;
      ok := !HasCurrent(View(), date);
      if ok {
        var group := if found.Some? then plans[found.value].group else newGroup;
        var version := if found.Some? then plans[found.value].version + 1 else 1;
        if draft && found.Some? && plans[found.value].status == PlanDraft {
          plans := plans[found.value := plans[found.value].(status := PlanCancelled)];
        }
        plans := plans[p := Plan(date, group, version, found, if draft then PlanDraft else PlanCurrent,
                                 if draft then None else Some(now), None, true)];
      }
    }

    /** `confirm_draft`. */
    method ConfirmDraft(p: Id, now: Instant) returns (ok: bool)
      requires p in plans
      modifies this
      ensures ok == CanConfirm(old(View()), p)
      ensures View() == Step(old(View()), EConfirm(p, now))
    {
      ok := plans[p].status == PlanDraft && IsLatest(View(), plans[p].date, Some(p)) && !HasCurrent(View(), plans[p].date);
      if ok {
        plans := plans[p := plans[p].(status := PlanCurrent)];
        plans := plans[p := plans[p].(activatedAt := Some(now))];
      }
    }

    // ----- decisions -----

    /** `decide` with APPROVE; stale tells that the schedule of an option has expired or its facts
        have changed. */
    method Approve(a: Id, stale: bool, who: Id, now: Instant) returns (ok: bool, closed: seq<Id>)
      requires Inv(View())
      modifies this
      ensures ok == (CanApprove(old(View()), a, now) && !(old(attempts)[a].isOption && stale))
      ensures View() == if ok then Approved(old(View()), a, who, now) else old(View())
    {
      ok, closed := Reviewable(View(), a), [];
      if ok {
        ok := incidents[attempts[a].incidentId].detectedAt <= now && !(attempts[a].isOption && stale);
      }
      if ok {
        ApprovedOneKeepsInv(View(), a, Verdict(Protocol.Approve, who, now));
        closed := SettleApproval(a, who, now);
      }
    }

    /** The writes of an approval. */
    method SettleApproval(a: Id, who: Id, now: Instant) returns (closed: seq<Id>)
      requires CanApprove(View(), a, now) && Paired(ApprovedOne(View(), a, Verdict(Protocol.Approve, who, now)))
      requires attempts[a].candidate != Some(attempts[a].base)
      modifies this
      ensures View() == Approved(old(View()), a, who, now)
    {
      ghost var s := View();
      var base, candidate, incident := attempts[a].base, attempts[a].candidate.value, attempts[a].incidentId;
      plans := plans[base := plans[base].(status := PlanSuperseded, supersededAt := Some(now))];
      plans := plans[candidate := plans[candidate].(status := PlanCurrent, activatedAt := Some(now))];
      incidents := incidents[incident := incidents[incident].(status := Resolved, resolvedAt := Some(now))];
      attempts := attempts[a := attempts[a].(status := Decided, verdict := Some(Verdict(Protocol.Approve, who, now)))];
      assert View() == ApprovedOne(s, a, Verdict(Protocol.Approve, who, now));
      closed := CloseSiblings(a, Verdict(Protocol.Reject, who, now));
    }

    /** `_close_siblings`, for an option. */
    method CloseSiblings(a: Id, v: Verdict) returns (closed: seq<Id>)
      requires Paired(View()) && a in attempts
      modifies this
      ensures View() == SiblingsClosed(old(View()), a, v)
      ensures old(attempts)[a].isOption ==>
                Lists(old(attempts), PendingOf(old(View()), old(attempts)[a].incidentId, {a}), closed)
    {
      closed := [];
      if attempts[a].isOption {
        var incident := attempts[a].incidentId;
        SiblingsArePending(View(), incident, {a});
        var t;
        t, closed := CloseAll(View(), incident, PendingOf(View(), incident, {a}), v);
        plans, attempts := t.plans, t.attempts;
      }
    }

    /** `decide` with REJECT. */
    method Reject(a: Id, who: Id, now: Instant) returns (ok: bool)
      modifies this
      ensures View() == Step(old(View()), EReject(a, who, now)) && ok == Reviewable(old(View()), a)
    {
      ok := Reviewable(View(), a);
      if ok {
        var candidate, incident := attempts[a].candidate.value, attempts[a].incidentId;
        var siblings := PendingOf(View(), incident, {a});
        plans := plans[candidate := plans[candidate].(status := PlanCancelled)];
        incidents := incidents[incident := incidents[incident].(status := Assessing)];
        attempts := attempts[a := attempts[a].(status := Decided, verdict := Some(Verdict(Protocol.Reject, who, now)))];
        if attempts[a].isOption && siblings != {} {
          incidents := incidents[incident := incidents[incident].(status := Review)];
        }
      }
    }

    /** A new attempt and the worker that will take it up. */
    method Reserve(next: Id, x: Attempt, forOptions: bool)
      modifies this
      ensures View() == WithAttempt(old(View()), next, x, forOptions)
    {
      attempts := attempts[next := x];
      workers := workers[next := Solving(forOptions)];
    }

    /** What `modify` checks, and the attempt whose number the next one follows. */
    method CheckModification(a: Id, next: Id) returns (ok: bool, last: Id)
      requires next !in attempts
      ensures ok == CanModify(View(), a, next, last)
      ensures a in attempts ==> IsLastAttempt(View(), last, attempts[a].incidentId)
    {
      ok, last := false, a;
      if a in attempts {
        var found := FindLastAttempt(View(), attempts[a].incidentId);
        assert Of(View(), a, attempts[a].incidentId);
        last := found.value;
        ok := Reviewable(View(), a) && NextScope(attempts[a].scope).Some? && (attempts[a].isOption || last == a);
      }
    }

    /** `modify`: the attempt and its siblings are closed and a wider attempt is reserved. */
    method Modify(a: Id, next: Id, who: Id, now: Instant) returns (ok: bool, last: Id)
      requires Inv(View()) && next !in attempts
      modifies this
      ensures ok == CanModify(old(View()), a, next, last)
      ensures a in old(attempts) ==> IsLastAttempt(old(View()), last, old(attempts)[a].incidentId)
      ensures View() == if ok then Modified(old(View()), a, next, last, who, now) else old(View())
    {
      ok, last := CheckModification(a, next);
      if ok {
        var x, number := attempts[a], attempts[last].no + 1;
        DeclinedOneKeepsInv(View(), a, Verdict(Protocol.Modify, who, now), Replanning);
        SettleModification(a, who, now);
        Reserve(next, NewAttempt(x.incidentId, number, Some(a), x.base, NextScope(x.scope).value), x.isOption);
      }
    }

    /** The writes of a modification up to the reservation. */
    method SettleModification(a: Id, who: Id, now: Instant)
      requires Reviewable(View(), a) && Paired(DeclinedOne(View(), a, Verdict(Protocol.Modify, who, now), Replanning))
      modifies this
      ensures View() == ModifiedSoFar(old(View()), a, who, now)
    {
      ghost var s := View();
      var candidate, incident := attempts[a].candidate.value, attempts[a].incidentId;
      plans := plans[candidate := plans[candidate].(status := PlanCancelled)];
      attempts := attempts[a := attempts[a].(status := Decided, verdict := Some(Verdict(Protocol.Modify, who, now)))];
      incidents := incidents[incident := incidents[incident].(status := Replanning)];
      assert View() == DeclinedOne(s, a, Verdict(Protocol.Modify, who, now), Replanning);
      var _ := CloseSiblings(a, Verdict(Protocol.Reject, who, now));
    }

    // ----- options -----

    /** What is under review for the incident is closed. */
    method ClearReview(i: Id, now: Instant)
      requires Paired(View()) && i in incidents
      modifies this
      ensures View() == OptionsCleared(old(View()), i, now)
    {
      SiblingsArePending(View(), i, {});
      var t, closed := CloseAll(View(), i, PendingOf(View(), i, {}), Verdict(Protocol.Reject, SYSTEM, now));
      plans, attempts := t.plans, t.attempts;
      incidents := incidents[i := incidents[i].(status := Replanning)];
    }

    /** `RecoveryOptionsWorkflow.start`. */
    method StartOptions(i: Id, a: Id, regenerate: bool, now: Instant) returns (ok: bool, last: Option<Id>)
      requires Inv(View()) && a !in attempts
      modifies this
      ensures last.Some? ==> IsLastAttempt(old(View()), last.value, i)
      ensures ok == CanStartOptions(old(View()), i, a, last, regenerate)
      ensures View() == if ok then OptionsStarted(old(View()), i, a, last, regenerate, now) else old(View())
    {
      last := FindLastAttempt(View(), i);
      ok := CanStartOptions(View(), i, a, last, regenerate);
      if ok {
        var number, base := if last.Some? then attempts[last.value].no + 1 else 1, incidents[i].planId;
        ClearReview(i, now);
        Reserve(a, NewAttempt(i, number, last, base, AffectedRoute), true);
      }
    }
  }
}

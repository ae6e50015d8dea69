/** AlertService: reconciling the persisted alerts of a business date with the orders now at
    risk, and logging every change. */
module Alerts {
  import opened Ordering
  import opened Domain
  import opened Risk

  datatype AlertStatus = AlertActive | AlertResolved
  datatype ChangeType = Created | Updated | Resolved

  datatype Evidence = Evidence(reason: Reason, eta: Instant, windowEnd: Instant, delay: nat, routeId: Id)

  /** A row of risk_alerts; its id is its position in the table. */
  datatype Alert = Alert(
    planId: Id,
    orderId: Id,
    status: AlertStatus,
    evidence: Evidence,
    detectedAt: Instant,
    lastEvaluatedAt: Instant,
    resolvedAt: Option<Instant>)

  /** A row of risk_alert_changes. */
  datatype Change = Change(id: nat, alertId: nat, kind: ChangeType, recordedAt: Instant, evidence: Evidence)

  /** The current plan: the route of each member order, if it has one, and the stops of each
      route in sequence order. */
  datatype CurrentPlan = CurrentPlan(id: Id, members: map<Id, Option<Id>>, routes: map<Id, seq<Stop>>)

  /** The alerts and changes of one business date, its orders, and the cursor sequence. */
  datatype Book = Book(alerts: seq<Alert>, log: seq<Change>, orders: map<Id, Order>, cursor: nat)

  // ----- what is at risk -----

  /** `deliveries.get((route.id, order_id))`. */
  function DeliveryOf(stops: seq<Stop>, o: Id): Option<Stop> {
    if stops == [] then None
    else if stops[|stops| - 1].kind == Delivery && stops[|stops| - 1].orderId == o then Some(stops[|stops| - 1])
    else DeliveryOf(stops[..|stops| - 1], o)
  }

  function EvidenceOn(threshold: nat, routeId: Id, stops: seq<Stop>, delivery: Stop, windowEnd: Instant, now: Instant): Option<Evidence> {
    var delay := RouteDelay(stops, now);
    var eta := delivery.plannedArrival + delay;
    var end := Or(delivery.windowEnd, windowEnd);
    if StatusForEta(threshold, eta, end) == Normal then None
    else Some(Evidence(ReasonForEta(threshold, eta, end), eta, end, delay, routeId))
  }

  /** The evidence that the order will miss or is close to missing its window: it is on a route
      of the plan with a delivery still to be made. */
  function AtRiskBy(threshold: nat, plan: CurrentPlan, orders: map<Id, Order>, o: Id, now: Instant): Option<Evidence> {
    if o !in plan.members || o !in orders || plan.members[o] == None || plan.members[o].value !in plan.routes then None
    else
      var routeId := plan.members[o].value;
      var stops := plan.routes[routeId];
      var delivery := DeliveryOf(stops, o);
      if delivery == None || orders[o].status == OrderCompleted || delivery.value.status == Completed then None
      else EvidenceOn(threshold, routeId, stops, delivery.value, orders[o].windowEnd, now)
  }

  // ----- the effect of an evaluation -----

  function LatestEvaluation(alerts: seq<Alert>): Option<Instant> {
    if alerts == [] then None
    else
      var before := LatestEvaluation(alerts[..|alerts| - 1]);
      var last := alerts[|alerts| - 1].lastEvaluatedAt;
      Some(if before.Some? then Max(before.value, last) else last)
  }

  /** An evaluation never happens before an earlier one of the same date. */
  function Clamp(alerts: seq<Alert>, at: Instant): Instant {
    var latest := LatestEvaluation(alerts);
    if latest.Some? then Max(at, latest.value) else at
  }

  /** `active.get((plan.id, order_id))`. */
  function FindActive(alerts: seq<Alert>, planId: Id, o: Id): (found: Option<nat>)
    ensures found.Some? ==>
              && found.value < |alerts| && alerts[found.value].status == AlertActive
              && alerts[found.value].planId == planId && alerts[found.value].orderId == o
  {
    if alerts == [] then None
    else
      var last := alerts[|alerts| - 1];
      if last.status == AlertActive && last.planId == planId && last.orderId == o then Some(|alerts| - 1)
      else FindActive(alerts[..|alerts| - 1], planId, o)
  }

  function Logged(b: Book, alertId: nat, kind: ChangeType, now: Instant, e: Evidence): Book {
    b.(log := b.log + [Change(b.cursor, alertId, kind, now, e)], cursor := b.cursor + 1)
  }

  function WithRisk(b: Book, o: Id, risk: RiskStatus): Book
    requires o in b.orders
  {
    b.(orders := b.orders[o := b.orders[o].(risk := risk)])
  }

  function Raise(b: Book, planId: Id, o: Id, e: Evidence, now: Instant): Book {
    Logged(b.(alerts := b.alerts + [Alert(planId, o, AlertActive, e, now, now, None)]), |b.alerts|, Created, now, e)
  }

  function Refresh(b: Book, i: nat, e: Evidence, now: Instant): Book
    requires i < |b.alerts|
  {
    var refreshed := b.(alerts := b.alerts[i := b.alerts[i].(evidence := e, lastEvaluatedAt := now)]);
    if b.alerts[i].evidence.reason != e.reason then Logged(refreshed, i, Updated, now, e) else refreshed
  }

  /** One member order; `before` are the alerts when the evaluation began. */
  function Consider(threshold: nat, plan: CurrentPlan, now: Instant, before: seq<Alert>, b: Book, o: Id): Book
    requires |before| <= |b.alerts|
  {
    if o !in b.orders then b
    else
      var evidence := AtRiskBy(threshold, plan, b.orders, o, now);
      if evidence == None then WithRisk(b, o, Normal)
      else
        var marked := WithRisk(b, o, AtRisk);
        var found := FindActive(before, plan.id, o);
        if found == None then Raise(marked, plan.id, o, evidence.value, now)
        else Refresh(marked, found.value, evidence.value, now)
  }

  function ConsiderAll(threshold: nat, plan: CurrentPlan, now: Instant, b: Book, ids: seq<Id>, n: nat): (after: Book)
    requires n <= |ids|
    ensures |b.alerts| <= |after.alerts|
  {
    if n == 0 then b
    else Consider(threshold, plan, now, b.alerts, ConsiderAll(threshold, plan, now, b, ids, n - 1), ids[n - 1])
  }

  /** The alert is backed by the current plan. */
  predicate Backed(threshold: nat, plan: Option<CurrentPlan>, orders: map<Id, Order>, alert: Alert, now: Instant) {
    plan.Some? && alert.planId == plan.value.id && AtRiskBy(threshold, plan.value, orders, alert.orderId, now).Some?
  }

  function ResolvedReason(plan: Option<CurrentPlan>, alert: Alert): Reason {
    if plan == None || alert.planId != plan.value.id then PlanNotCurrent else RiskCleared
  }

  function Closed(plan: Option<CurrentPlan>, alert: Alert, now: Instant): Alert {
    alert.(status := AlertResolved, resolvedAt := Some(now), lastEvaluatedAt := now,
           evidence := alert.evidence.(reason := ResolvedReason(plan, alert)))
  }

  function IsMember(plan: Option<CurrentPlan>, o: Id): bool {
    plan.Some? && o in plan.value.members
  }

  /** Resolving row i; the order of a stale alert is no longer at risk. */
  function Resolve(plan: Option<CurrentPlan>, now: Instant, b: Book, i: nat): Book
    requires i < |b.alerts|
  {
    var alert := Closed(plan, b.alerts[i], now);
    var cleared := if !IsMember(plan, alert.orderId) && alert.orderId in b.orders then WithRisk(b, alert.orderId, Normal) else b;
    Logged(cleared.(alerts := b.alerts[i := alert]), i, Resolved, now, alert.evidence)
  }

  /** The loop over the alerts active before, up to row n. */
  function ResolveAll(threshold: nat, plan: Option<CurrentPlan>, now: Instant, before: Book, b: Book, n: nat): (after: Book)
    requires n <= |before.alerts| <= |b.alerts|
    ensures |after.alerts| == |b.alerts|
  {
    if n == 0 then b
    else
      var sofar := ResolveAll(threshold, plan, now, before, b, n - 1);
      var alert := before.alerts[n - 1];
      if alert.status == AlertActive && !Backed(threshold, plan, before.orders, alert, now)
      then Resolve(plan, now, sofar, n - 1)
      else sofar
  }

  ghost function MemberIds(plan: Option<CurrentPlan>): seq<Id> {
    if plan.Some? then Ascending(plan.value.members.Keys) else []
  }

  ghost function Considered(threshold: nat, plan: Option<CurrentPlan>, at: Instant, b: Book): (after: Book)
    ensures |b.alerts| <= |after.alerts|
  {
    if plan == None then b
    else ConsiderAll(threshold, plan.value, Clamp(b.alerts, at), b, MemberIds(plan), |MemberIds(plan)|)
  }

  /** `_evaluate_locked`. */
  ghost function Evaluated(threshold: nat, plan: Option<CurrentPlan>, at: Instant, b: Book): Book {
    ResolveAll(threshold, plan, Clamp(b.alerts, at), b, Considered(threshold, plan, at, b), |b.alerts|)
  }

  // ----- the service -----

  /** `sorted(...)` of identifiers. */
  method Sorted(s: set<Id>) returns (ids: seq<Id>)
    ensures ids == Ascending(s)
  {
    ids := [];
    var todo := s;
    while todo != {}
      invariant todo <= s && ids + Ascending(todo) == Ascending(s)
    {
      var m := LeastOf(todo);
      assert Ascending(todo) == [m] + Ascending(todo - {m}) by {
        assert IsLeast(m, todo) && IsLeast(Least(todo), todo);
      }
      ids := ids + [m];
      todo := todo - {m};
    }
  }

  class AlertService {
    const threshold: nat
    var alerts: seq<Alert>
    var log: seq<Change>
    var orders: map<Id, Order>
    var cursor: nat

    constructor (threshold: nat, b: Book)
      ensures this.threshold == threshold && Tables() == b
    {
      this.threshold := threshold;
      alerts, log, orders, cursor := b.alerts, b.log, b.orders, b.cursor;
    }

    function Tables(): Book
      reads this
    {
      Book(alerts, log, orders, cursor)
    }

    /** `_evaluate_locked`, with the counts of what it did. */
    method Evaluate(plan: Option<CurrentPlan>, at: Instant) returns (created: nat, updated: nat, resolved: nat)
      modifies this
      ensures Tables() == Evaluated(threshold, plan, at, old(Tables()))
      ensures Counts(log, |old(log)|, created, updated, resolved)
    {
      ghost var start := Tables();
      var before := alerts;
      var latest := LatestEvaluation(alerts);
      var now := if latest.Some? then Max(at, latest.value) else at;
      var touched: set<Id>;
      created, updated, touched := 0, 0, {};
      if plan.Some? {
        var ids := Sorted(plan.value.members.Keys);
        AscendingSorts(plan.value.members.Keys);
        created, updated, touched := ConsiderMembers(plan.value, now, ids);
      }
      resolved := ResolveOthers(plan, now, before, touched, start, |start.log|, created, updated);
    }

    method ConsiderMembers(plan: CurrentPlan, now: Instant, ids: seq<Id>) returns (created: nat, updated: nat, touched: set<Id>)
      modifies this
      ensures Tables() == ConsiderAll(threshold, plan, now, old(Tables()), ids, |ids|)
      ensures |old(log)| <= |log| && Counts(log, |old(log)|, created, updated, 0)
      ensures forall o :: o in touched <==> o in ids && AtRiskBy(threshold, plan, old(orders), o, now).Some?
    {
      ghost var start := Tables();
      var before := alerts;
      created, updated, touched := 0, 0, {};
      for n := 0 to |ids|
        invariant Tables() == ConsiderAll(threshold, plan, now, start, ids, n)
        invariant |start.log| <= |log| && Counts(log, |start.log|, created, updated, 0)
        invariant SameButRisk(start.orders, orders)
        invariant forall o :: o in touched <==> o in ids[..n] && AtRiskBy(threshold, plan, start.orders, o, now).Some?
      {
        RiskFlagsDoNotMatter(threshold, plan, start.orders, orders, ids[n], now);
        assert ids[..n + 1] == ids[..n] + [ids[n]];
        ghost var sofar := log;
        var did, isTouched := ConsiderOrder(plan, now, before, ids[n]);
        forall kind ensures Count(log, |start.log|, kind) == Count(sofar, |start.log|, kind) + if did == Some(kind) then 1 else 0 {
          CountGrown(sofar, log, did, |start.log|, kind);
        }
        if isTouched {
          touched := touched + {ids[n]};
        }
        if did == Some(Created) {
          created := created + 1;
        } else if did == Some(Updated) {
          updated := updated + 1;
        }
      }
      assert ids[..|ids|] == ids;
    }

    /** One member order; returns what was logged, if anything, and whether the order is at risk. */
    method ConsiderOrder(plan: CurrentPlan, now: Instant, before: seq<Alert>, o: Id) returns (did: Option<ChangeType>, touched: bool)
      requires |before| <= |alerts|
      modifies this
      ensures Tables() == Consider(threshold, plan, now, before, old(Tables()), o)
      ensures touched == AtRiskBy(threshold, plan, old(orders), o, now).Some?
      ensures SameButRisk(old(orders), orders)
      ensures Grown(old(log), log, did) && did != Some(Resolved)
    {
      if o !in orders {
        return None, false;
      }
      var order := orders[o];
      var evidence := AtRiskBy(threshold, plan, orders, o, now);
      orders := orders[o := order.(risk := if evidence == None then Normal else AtRisk)];
      if evidence == None {
        return None, false;
      }
      did, touched := None, true;
      var found := FindActive(before, plan.id, o);
      if found == None {
        alerts := alerts + [Alert(plan.id, o, AlertActive, evidence.value, now, now, None)];
        Append(|alerts| - 1, Created, now, evidence.value);
        did := Some(Created);
      } else {
        var alert := alerts[found.value];
        alerts := alerts[found.value := alert.(evidence := evidence.value, lastEvaluatedAt := now)];
        if alert.evidence.reason != evidence.value.reason {
          Append(found.value, Updated, now, evidence.value);
          did := Some(Updated);
        }
      }
    }

    /** The loop over the alerts that were active before. */
    method ResolveOthers(plan: Option<CurrentPlan>, now: Instant, before: seq<Alert>, touched: set<Id>,
                         ghost start: Book, ghost from: nat, ghost created: nat, ghost updated: nat) returns (resolved: nat)
      requires |before| <= |alerts| && start.alerts == before
      requires forall i :: 0 <= i < |before| && before[i].status == AlertActive ==>
                 (Backed(threshold, plan, start.orders, before[i], now)
                  <==> plan.Some? && before[i].planId == plan.value.id && before[i].orderId in touched)
      requires from <= |log| && Counts(log, from, created, updated, 0)
      modifies this
      ensures Tables() == ResolveAll(threshold, plan, now, start, old(Tables()), |before|)
      ensures Counts(log, from, created, updated, resolved)
    {
      ghost var entry := Tables();
      resolved := 0;
      for n := 0 to |before|
        invariant Tables() == ResolveAll(threshold, plan, now, start, entry, n)
        invariant from <= |log| && Counts(log, from, created, updated, resolved)
      {
        var alert := before[n];
        if alert.status == AlertActive && !(plan.Some? && alert.planId == plan.value.id && alert.orderId in touched) {
          ghost var sofar := log;
          ResolveRow(plan, now, n);
          resolved := resolved + 1;
          forall kind ensures Count(log, from, kind) == Count(sofar, from, kind) + if kind == Resolved then 1 else 0 {
            CountGrown(sofar, log, Some(Resolved), from, kind);
          }
        }
      }
    }

    method ResolveRow(plan: Option<CurrentPlan>, now: Instant, i: nat)
      requires i < |alerts|
      modifies this
      ensures Tables() == Resolve(plan, now, old(Tables()), i)
      ensures Grown(old(log), log, Some(Resolved))
    {
      var alert := alerts[i];
      var reason := if plan == None || alert.planId != plan.value.id then PlanNotCurrent else RiskCleared;
      alert := alert.(status := AlertResolved, resolvedAt := Some(now), lastEvaluatedAt := now,
                      evidence := alert.evidence.(reason := reason));
      alerts := alerts[i := alert];
      if !IsMember(plan, alert.orderId) && alert.orderId in orders {
        orders := orders[alert.orderId := orders[alert.orderId].(risk := Normal)];
      }
      Append(i, Resolved, now, alert.evidence);
    }

    /** `_append`. */
    method Append(alertId: nat, kind: ChangeType, now: Instant, evidence: Evidence)
      modifies this`log, this`cursor
      ensures Tables() == Logged(old(Tables()), alertId, kind, now, evidence)
      ensures Grown(old(log), log, Some(kind))
    {
      log := log + [Change(cursor, alertId, kind, now, evidence)];
      cursor := cursor + 1;
    }
  }

  /** At most one change, of this kind, was appended. */
  ghost predicate Grown(before: seq<Change>, after: seq<Change>, did: Option<ChangeType>) {
    if did == None then after == before
    else |after| == |before| + 1 && after[..|before|] == before && after[|before|].kind == did.value
  }

  /** The changes of a kind logged since position `from`. */
  function Count(log: seq<Change>, from: nat, kind: ChangeType): nat
    decreases |log|
  {
    if |log| <= from then 0
    else Count(log[..|log| - 1], from, kind) + if log[|log| - 1].kind == kind then 1 else 0
  }

  /** The counts tell what was logged. */
  ghost predicate Counts(log: seq<Change>, from: nat, created: nat, updated: nat, resolved: nat) {
    && created == Count(log, from, Created) && updated == Count(log, from, Updated)
    && resolved == Count(log, from, Resolved)
  }

  lemma {:induction false} CountGrown(before: seq<Change>, after: seq<Change>, did: Option<ChangeType>, from: nat, kind: ChangeType)
    requires Grown(before, after, did) && from <= |before|
    ensures Count(after, from, kind) == Count(before, from, kind) + if did == Some(kind) then 1 else 0
  {
  }

  ghost predicate SameButRisk(x: map<Id, Order>, y: map<Id, Order>) {
    x.Keys == y.Keys && forall o :: o in x ==> y[o] == x[o].(risk := y[o].risk)
  }

  /** Whether an order is at risk depends on no stored risk flag. */
  lemma {:induction false} RiskFlagsDoNotMatter(threshold: nat, plan: CurrentPlan, x: map<Id, Order>, y: map<Id, Order>, o: Id, now: Instant)
    requires SameButRisk(x, y)
    ensures AtRiskBy(threshold, plan, x, o, now) == AtRiskBy(threshold, plan, y, o, now)
  {
  }
}

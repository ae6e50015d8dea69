/** What an evaluation leaves in the tables, row by row and by arithmetic on planned and recorded times. */
module AlertEvidence {
  import opened Ordering
  import opened Domain
  import opened Risk
  import opened Alerts
  import opened AlertLaws
  import opened StopActions

  // ----- who is at risk, and by what -----

  /** The order is on route r of the plan, its delivery d there is not made yet, and it is too late, or within
      the threshold of it, given how late the first open stop f is. */
  ghost predicate Endangers(threshold: nat, plan: CurrentPlan, orders: map<Id, Order>, o: Id, now: Instant, r: Id, d: nat, f: nat) {
    && o in plan.members && plan.members[o] == Some(r) && r in plan.routes
    && o in orders && orders[o].status != OrderCompleted
    && var stops := plan.routes[r];
       && LastDelivery(stops, d, o) && stops[d].status != Completed && FirstOpen(stops, f)
       && TooLate(threshold, stops, d, f, now, orders[o].windowEnd)
  }

  ghost predicate Endangered(threshold: nat, plan: CurrentPlan, orders: map<Id, Order>, o: Id, now: Instant) {
    exists r, d, f :: Endangers(threshold, plan, orders, o, now, r, d, f)
  }

  /** The numbers that show it. */
  ghost predicate Shows(plan: CurrentPlan, orders: map<Id, Order>, o: Id, now: Instant, r: Id, d: nat, f: nat, e: Evidence)
    requires r in plan.routes && d < |plan.routes[r]| && f < |plan.routes[r]| && o in orders
  {
    var stops := plan.routes[r];
    && e.routeId == r
    && e.delay == (if stops[f].plannedArrival < now then now - stops[f].plannedArrival else 0)
    && e.eta == stops[d].plannedArrival + e.delay
    && e.windowEnd == (if stops[d].windowEnd.Some? then stops[d].windowEnd.value else orders[o].windowEnd)
    && e.reason == if e.windowEnd <= e.eta then PredictedMiss else ApproachingWindow
  }

  ghost predicate IsEvidence(threshold: nat, plan: CurrentPlan, orders: map<Id, Order>, o: Id, now: Instant, e: Evidence) {
    forall r, d, f :: Endangers(threshold, plan, orders, o, now, r, d, f) ==> Shows(plan, orders, o, now, r, d, f, e)
  }

  lemma {:induction false} DeliveryIs(stops: seq<Stop>, o: Id)
    ensures var found := DeliveryOf(stops, o);
            if found == None then NoDelivery(stops, o) else exists d :: LastDelivery(stops, d, o) && stops[d] == found.value
  {
    if stops != [] {
      var front, last := stops[..|stops| - 1], stops[|stops| - 1];
      DeliveryIs(front, o);
      LastDeliveryGrows(stops, o);
      if last.kind == Delivery && last.orderId == o {
        assert LastDelivery(stops, |front|, o);
      }
    }
  }

  /** The estimate of the source, in arithmetic. */
  lemma {:induction false} EvidenceIs(threshold: nat, plan: CurrentPlan, orders: map<Id, Order>, o: Id, now: Instant, r: Id, d: nat, f: nat)
    requires o in plan.members && plan.members[o] == Some(r) && r in plan.routes && o in orders && orders[o].status != OrderCompleted
    requires LastDelivery(plan.routes[r], d, o) && plan.routes[r][d].status != Completed && FirstOpen(plan.routes[r], f)
    ensures var found := AtRiskBy(threshold, plan, orders, o, now);
            && (found.Some? <==> TooLate(threshold, plan.routes[r], d, f, now, orders[o].windowEnd))
            && (found.Some? ==> Shows(plan, orders, o, now, r, d, f, found.value))
  {
    DeliveryIs(plan.routes[r], o);
    DelayIs(plan.routes[r], now, f);
  }

  lemma {:induction false} RiskIff(threshold: nat, plan: CurrentPlan, orders: map<Id, Order>, o: Id, now: Instant)
    ensures AtRiskBy(threshold, plan, orders, o, now).Some? <==> Endangered(threshold, plan, orders, o, now)
    ensures AtRiskBy(threshold, plan, orders, o, now).Some? ==>
              IsEvidence(threshold, plan, orders, o, now, AtRiskBy(threshold, plan, orders, o, now).value)
  {
    if AtRiskBy(threshold, plan, orders, o, now).Some? {
      var r := plan.members[o].value;
      DeliveryIs(plan.routes[r], o);
      var d :| LastDelivery(plan.routes[r], d, o) && plan.routes[r][d] == DeliveryOf(plan.routes[r], o).value;
      var f := FirstOpenExists(plan.routes[r], d);
      EvidenceIs(threshold, plan, orders, o, now, r, d, f);
      assert Endangers(threshold, plan, orders, o, now, r, d, f);
    }
    forall r, d, f | Endangers(threshold, plan, orders, o, now, r, d, f)
      ensures AtRiskBy(threshold, plan, orders, o, now).Some?
      ensures Shows(plan, orders, o, now, r, d, f, AtRiskBy(threshold, plan, orders, o, now).value)
    {
      EvidenceIs(threshold, plan, orders, o, now, r, d, f);
    }
  }

  // ----- the log -----

  /** Change k, logged by this evaluation, tells what happened to its alert. */
  ghost predicate EntryTells(b: Book, after: Book, now: Instant, k: nat)
    requires |b.log| <= k < |after.log|
  {
    var c := after.log[k];
    && c.id == b.cursor + (k - |b.log|) && c.recordedAt == now
    && c.alertId < |after.alerts| && c.evidence == after.alerts[c.alertId].evidence
    && c.kind == if |b.alerts| <= c.alertId then Created
                 else if after.alerts[c.alertId].status == AlertResolved then Resolved else Updated
  }

  /** The alert is new, or it has another status or another reason than before. */
  ghost predicate IsNews(b: Book, after: Book, i: nat)
    requires i < |after.alerts|
  {
    || |b.alerts| <= i
    || after.alerts[i].status != b.alerts[i].status
    || after.alerts[i].evidence.reason != b.alerts[i].evidence.reason
  }

  ghost predicate IsLogged(b: Book, after: Book, i: nat) {
    exists k :: |b.log| <= k < |after.log| && after.log[k].alertId == i
  }

  /** Exactly the news is logged, each alert once, under the next cursor values. */
  ghost predicate LogTells(b: Book, after: Book, now: Instant) {
    && |b.alerts| <= |after.alerts| && |b.log| <= |after.log| && after.log[..|b.log|] == b.log
    && after.cursor == b.cursor + (|after.log| - |b.log|)
    && (forall k :: |b.log| <= k < |after.log| ==> EntryTells(b, after, now, k))
    && (forall i: nat :: i < |after.alerts| ==> (IsNews(b, after, i) <==> IsLogged(b, after, i)))
    && (forall k, l :: |b.log| <= k < l < |after.log| ==> after.log[k].alertId != after.log[l].alertId)
  }

  /** Row i gets news and they are logged. */
  lemma {:induction false} OneMoreEntry(b: Book, mid: Book, after: Book, now: Instant, i: nat, c: Change)
    requires LogTells(b, mid, now) && |mid.alerts| <= |after.alerts| && i < |after.alerts| <= i + |mid.alerts| + 1
    requires if i < |mid.alerts| then |after.alerts| == |mid.alerts| && !IsNews(b, mid, i) else i == |mid.alerts| && |after.alerts| == i + 1
    requires forall j :: 0 <= j < |mid.alerts| && j != i ==> after.alerts[j] == mid.alerts[j]
    requires after.log == mid.log + [c] && after.cursor == mid.cursor + 1 && IsNews(b, after, i)
    requires c == Change(mid.cursor, i, c.kind, now, after.alerts[i].evidence)
    requires c.kind == if |b.alerts| <= i then Created else if after.alerts[i].status == AlertResolved then Resolved else Updated
    ensures LogTells(b, after, now)
  {
    forall k | |b.log| <= k < |mid.log| ensures mid.log[k].alertId < |mid.alerts| {
      assert EntryTells(b, mid, now, k);
    }
    assert !IsLogged(b, mid, i);
    forall k | |b.log| <= k < |mid.log| ensures mid.log[k].alertId != i && EntryTells(b, after, now, k) {
      assert EntryTells(b, mid, now, k);
    }
    forall j: nat | j < |after.alerts| ensures IsNews(b, after, j) <==> IsLogged(b, after, j) {
      if j == i {
        assert after.log[|mid.log|].alertId == i;
      } else {
        assert IsNews(b, after, j) <==> IsNews(b, mid, j);
        if k :| |b.log| <= k < |mid.log| && mid.log[k].alertId == j { assert after.log[k].alertId == j; }
        if k :| |b.log| <= k < |after.log| && after.log[k].alertId == j { assert mid.log[k].alertId == j; }
      }
    }
  }

  /** Row i changes without news. */
  lemma {:induction false} NoEntry(b: Book, mid: Book, after: Book, now: Instant, i: nat)
    requires LogTells(b, mid, now) && |after.alerts| == |mid.alerts| && i < |mid.alerts| && after.log == mid.log && after.cursor == mid.cursor
    requires forall j :: 0 <= j < |mid.alerts| && j != i ==> after.alerts[j] == mid.alerts[j]
    requires !IsNews(b, mid, i) && !IsNews(b, after, i)
    ensures LogTells(b, after, now)
  {
    forall k | |b.log| <= k < |mid.log| ensures EntryTells(b, after, now, k) {
      assert EntryTells(b, mid, now, k);
      assert IsLogged(b, mid, mid.log[k].alertId);
    }
    forall j: nat | j < |after.alerts| ensures IsNews(b, after, j) <==> IsLogged(b, after, j) {
      assert IsNews(b, after, j) <==> IsNews(b, mid, j);
      assert IsLogged(b, after, j) <==> IsLogged(b, mid, j);
    }
  }

  // ----- the rows -----

  /** An alert that was active before: kept with the evidence of now, or resolved. */
  ghost predicate RowTells(threshold: nat, plan: Option<CurrentPlan>, orders: map<Id, Order>, now: Instant, was: Alert, row: Alert) {
    if was.status != AlertActive then row == was
    else if plan.Some? && was.planId == plan.value.id && Endangered(threshold, plan.value, orders, was.orderId, now) then
      && row == was.(evidence := row.evidence, lastEvaluatedAt := now)
      && IsEvidence(threshold, plan.value, orders, was.orderId, now, row.evidence)
    else
      row == was.(status := AlertResolved, resolvedAt := Some(now), lastEvaluatedAt := now,
                  evidence := was.evidence.(reason := if plan.Some? && was.planId == plan.value.id then RiskCleared else PlanNotCurrent))
  }

  /** A new alert. */
  ghost predicate NewRowTells(threshold: nat, plan: Option<CurrentPlan>, orders: map<Id, Order>, now: Instant, row: Alert) {
    && plan.Some? && row == Alert(plan.value.id, row.orderId, AlertActive, row.evidence, now, now, None)
    && Endangered(threshold, plan.value, orders, row.orderId, now)
    && IsEvidence(threshold, plan.value, orders, row.orderId, now, row.evidence)
  }

  /** The row of an earlier alert after the members `ids`. */
  function MidRow(threshold: nat, plan: CurrentPlan, orders: map<Id, Order>, ids: seq<Id>, now: Instant, was: Alert): Alert {
    var found := AtRiskBy(threshold, plan, orders, was.orderId, now);
    if was.status == AlertActive && was.planId == plan.id && was.orderId in ids && found.Some?
    then was.(evidence := found.value, lastEvaluatedAt := now) else was
  }

  ghost predicate AddedRow(threshold: nat, plan: CurrentPlan, orders: map<Id, Order>, ids: seq<Id>, now: Instant, row: Alert) {
    var found := AtRiskBy(threshold, plan, orders, row.orderId, now);
    row.orderId in ids && found.Some? && row == Alert(plan.id, row.orderId, AlertActive, found.value, now, now, None)
  }

  ghost predicate MidTells(threshold: nat, plan: CurrentPlan, now: Instant, b: Book, mid: Book, ids: seq<Id>) {
    && |b.alerts| <= |mid.alerts|
    && (forall i :: 0 <= i < |b.alerts| ==> mid.alerts[i] == MidRow(threshold, plan, b.orders, ids, now, b.alerts[i]))
    && (forall j :: |b.alerts| <= j < |mid.alerts| ==> AddedRow(threshold, plan, b.orders, ids, now, mid.alerts[j]))
    && LogTells(b, mid, now) && SameButRisk(b.orders, mid.orders)
  }

  lemma {:induction false} OrdersDoNotMatter(b: Book, mid: Book, orders: map<Id, Order>, now: Instant)
    requires LogTells(b, mid, now)
    ensures LogTells(b, mid.(orders := orders), now)
  {
    var after := mid.(orders := orders);
    forall k | |b.log| <= k < |after.log| ensures EntryTells(b, after, now, k) { assert EntryTells(b, mid, now, k); }
    forall i: nat | i < |after.alerts| ensures IsNews(b, after, i) <==> IsLogged(b, after, i) {
      assert IsNews(b, mid, i) <==> IsLogged(b, mid, i);
    }
  }

  lemma {:induction false} RaiseTells(threshold: nat, plan: CurrentPlan, now: Instant, b: Book, mid: Book, ids: seq<Id>, o: Id, e: Evidence)
    requires MidTells(threshold, plan, now, b, mid, ids) && AtRiskBy(threshold, plan, b.orders, o, now) == Some(e)
    requires forall i :: !ActiveFor(b.alerts, i, plan.id, o)
    ensures MidTells(threshold, plan, now, b, Raise(mid, plan.id, o, e, now), ids + [o])
  {
    var after := Raise(mid, plan.id, o, e, now);
    OneMoreEntry(b, mid, after, now, |mid.alerts|, after.log[|mid.log|]);
    forall i | 0 <= i < |b.alerts| ensures after.alerts[i] == MidRow(threshold, plan, b.orders, ids + [o], now, b.alerts[i]) {
      assert !ActiveFor(b.alerts, i, plan.id, o);
    }
  }

  lemma {:induction false} RefreshTells(threshold: nat, plan: CurrentPlan, now: Instant, b: Book, mid: Book, ids: seq<Id>, o: Id, e: Evidence, i: nat)
    requires MidTells(threshold, plan, now, b, mid, ids) && AtRiskBy(threshold, plan, b.orders, o, now) == Some(e) && o !in ids
    requires Unique(b.alerts) && ActiveFor(b.alerts, i, plan.id, o)
    ensures MidTells(threshold, plan, now, b, Refresh(mid, i, e, now), ids + [o])
  {
    var after := Refresh(mid, i, e, now);
    assert mid.alerts[i] == b.alerts[i];
    if b.alerts[i].evidence.reason != e.reason {
      OneMoreEntry(b, mid, after, now, i, after.log[|mid.log|]);
    } else {
      NoEntry(b, mid, after, now, i);
    }
    forall j | 0 <= j < |b.alerts| ensures after.alerts[j] == MidRow(threshold, plan, b.orders, ids + [o], now, b.alerts[j]) {
      if j != i { assert !ActiveFor(b.alerts, j, plan.id, o); }
    }
  }

  lemma {:induction false} QuietTells(threshold: nat, plan: CurrentPlan, now: Instant, b: Book, mid: Book, ids: seq<Id>, o: Id)
    requires MidTells(threshold, plan, now, b, mid, ids) && AtRiskBy(threshold, plan, b.orders, o, now) == None
    ensures MidTells(threshold, plan, now, b, mid, ids + [o])
  {
  }

  lemma {:induction false} MarkTells(threshold: nat, plan: CurrentPlan, now: Instant, b: Book, mid: Book, ids: seq<Id>, o: Id, risk: RiskStatus)
    requires MidTells(threshold, plan, now, b, mid, ids) && o in mid.orders
    ensures MidTells(threshold, plan, now, b, WithRisk(mid, o, risk), ids)
  {
    OrdersDoNotMatter(b, mid, WithRisk(mid, o, risk).orders, now);
  }

  lemma {:induction false} ConsiderTells(threshold: nat, plan: CurrentPlan, now: Instant, b: Book, mid: Book, ids: seq<Id>, o: Id)
    requires MidTells(threshold, plan, now, b, mid, ids) && Unique(b.alerts) && o !in ids
    ensures MidTells(threshold, plan, now, b, Consider(threshold, plan, now, b.alerts, mid, o), ids + [o])
  {
    RiskFlagsDoNotMatter(threshold, plan, b.orders, mid.orders, o, now);
    var evidence := AtRiskBy(threshold, plan, b.orders, o, now);
    if o !in mid.orders || evidence == None {
      QuietTells(threshold, plan, now, b, mid, ids, o);
      if o in mid.orders { MarkTells(threshold, plan, now, b, mid, ids + [o], o, Normal); }
    } else {
      MarkTells(threshold, plan, now, b, mid, ids, o, AtRisk);
      var marked := WithRisk(mid, o, AtRisk);
      FindActiveIs(b.alerts, plan.id, o);
      var found := FindActive(b.alerts, plan.id, o);
      if found == None {
        RaiseTells(threshold, plan, now, b, marked, ids, o, evidence.value);
      } else {
        RefreshTells(threshold, plan, now, b, marked, ids, o, evidence.value, found.value);
      }
    }
  }

  lemma {:induction false} ConsiderAllTells(threshold: nat, plan: CurrentPlan, now: Instant, b: Book, ids: seq<Id>, n: nat)
    requires Unique(b.alerts) && Increasing(ids) && n <= |ids|
    ensures MidTells(threshold, plan, now, b, ConsiderAll(threshold, plan, now, b, ids, n), ids[..n])
  {
    if n == 0 {
      NothingTells(b, now);
    } else {
      ConsiderAllTells(threshold, plan, now, b, ids, n - 1);
      assert ids[..n] == ids[..n - 1] + [ids[n - 1]] && ids[n - 1] !in ids[..n - 1];
      ConsiderTells(threshold, plan, now, b, ConsiderAll(threshold, plan, now, b, ids, n - 1), ids[..n - 1], ids[n - 1]);
    }
  }

  lemma {:induction false} NothingTells(b: Book, now: Instant)
    ensures LogTells(b, b, now)
  {
  }

  // ----- the loop over the earlier alerts -----

  ghost predicate Falls(threshold: nat, plan: Option<CurrentPlan>, b: Book, now: Instant, i: int) {
    0 <= i < |b.alerts| && b.alerts[i].status == AlertActive && !Backed(threshold, plan, b.orders, b.alerts[i], now)
  }

  /** Some alert of the order, which the current plan does not have, falls below row n. */
  ghost predicate FallsFor(threshold: nat, plan: Option<CurrentPlan>, b: Book, now: Instant, n: nat, o: Id) {
    !IsMember(plan, o) && exists i :: i < n && Falls(threshold, plan, b, now, i) && b.alerts[i].orderId == o
  }

  ghost predicate FallenRows(threshold: nat, plan: Option<CurrentPlan>, now: Instant, b: Book, mid: Book, after: Book, n: nat) {
    && n <= |b.alerts| <= |mid.alerts| == |after.alerts|
    && forall i :: 0 <= i < |mid.alerts| ==>
         after.alerts[i] == if i < n && Falls(threshold, plan, b, now, i) then Closed(plan, b.alerts[i], now) else mid.alerts[i]
  }

  ghost predicate FallenOrders(threshold: nat, plan: Option<CurrentPlan>, now: Instant, b: Book, mid: map<Id, Order>, after: map<Id, Order>, n: nat) {
    && after.Keys == mid.Keys
    && forall o :: o in mid ==>
         after[o] == if FallsFor(threshold, plan, b, now, n, o) then mid[o].(risk := Normal) else mid[o]
  }

  /** Rows that fall have not been touched by the loop over the members. */
  ghost predicate Untouched(threshold: nat, plan: Option<CurrentPlan>, now: Instant, b: Book, mid: Book) {
    |b.alerts| <= |mid.alerts| && forall i :: Falls(threshold, plan, b, now, i) ==> mid.alerts[i] == b.alerts[i]
  }

  ghost predicate FallenTells(threshold: nat, plan: Option<CurrentPlan>, now: Instant, b: Book, mid: Book, after: Book, n: nat) {
    && FallenRows(threshold, plan, now, b, mid, after, n)
    && FallenOrders(threshold, plan, now, b, mid.orders, after.orders, n)
    && LogTells(b, after, now)
  }

  lemma {:induction false} FallTells(threshold: nat, plan: Option<CurrentPlan>, now: Instant, b: Book, mid: Book, sofar: Book, n: nat)
    requires FallenTells(threshold, plan, now, b, mid, sofar, n) && Untouched(threshold, plan, now, b, mid)
    requires Falls(threshold, plan, b, now, n)
    ensures FallenTells(threshold, plan, now, b, mid, Resolve(plan, now, sofar, n), n + 1)
  {
    var after := Resolve(plan, now, sofar, n);
    var o := b.alerts[n].orderId;
    assert sofar.alerts[n] == b.alerts[n];
    OrdersDoNotMatter(b, sofar, after.orders, now);
    OneMoreEntry(b, sofar.(orders := after.orders), after, now, n, after.log[|sofar.log|]);
    forall p | p in mid.orders
      ensures FallsFor(threshold, plan, b, now, n + 1, p) <==> FallsFor(threshold, plan, b, now, n, p) || (p == o && !IsMember(plan, p))
    {
      if i :| i < n + 1 && Falls(threshold, plan, b, now, i) && b.alerts[i].orderId == p { assert i < n || i == n; }
    }
  }

  lemma {:induction false} StayTells(threshold: nat, plan: Option<CurrentPlan>, now: Instant, b: Book, mid: Book, sofar: Book, n: nat)
    requires FallenTells(threshold, plan, now, b, mid, sofar, n) && n < |b.alerts| && !Falls(threshold, plan, b, now, n)
    ensures FallenTells(threshold, plan, now, b, mid, sofar, n + 1)
  {
    forall p ensures FallsFor(threshold, plan, b, now, n + 1, p) <==> FallsFor(threshold, plan, b, now, n, p) {
      if i :| i < n + 1 && Falls(threshold, plan, b, now, i) && b.alerts[i].orderId == p { assert i < n; }
    }
  }

  lemma {:induction false} ResolveAllTells(threshold: nat, plan: Option<CurrentPlan>, now: Instant, b: Book, mid: Book, n: nat)
    requires Untouched(threshold, plan, now, b, mid) && LogTells(b, mid, now) && n <= |b.alerts|
    ensures FallenTells(threshold, plan, now, b, mid, ResolveAll(threshold, plan, now, b, mid, n), n)
  {
    if 0 < n {
      ResolveAllTells(threshold, plan, now, b, mid, n - 1);
      var sofar := ResolveAll(threshold, plan, now, b, mid, n - 1);
      if Falls(threshold, plan, b, now, n - 1) {
        FallTells(threshold, plan, now, b, mid, sofar, n - 1);
      } else {
        StayTells(threshold, plan, now, b, mid, sofar, n - 1);
      }
    }
  }

  // ----- one evaluation -----

  /** The time of an evaluation: now, but never before an earlier one. */
  ghost predicate IsTimeOf(alerts: seq<Alert>, at: Instant, now: Instant) {
    && at <= now && (forall i :: 0 <= i < |alerts| ==> alerts[i].lastEvaluatedAt <= now)
    && (now == at || exists i :: 0 <= i < |alerts| && alerts[i].lastEvaluatedAt == now)
  }

  lemma {:induction false} ClampIs(alerts: seq<Alert>, at: Instant)
    ensures IsTimeOf(alerts, at, Clamp(alerts, at))
  {
    LatestBounds(alerts);
  }

  /** The table between the loops. */
  ghost predicate Between(threshold: nat, plan: Option<CurrentPlan>, now: Instant, b: Book, mid: Book) {
    if plan == None then mid == b else MidTells(threshold, plan.value, now, b, mid, MemberIds(plan))
  }

  lemma {:induction false} ConsideredTells(threshold: nat, plan: Option<CurrentPlan>, at: Instant, b: Book)
    requires Unique(b.alerts)
    ensures Between(threshold, plan, Clamp(b.alerts, at), b, Considered(threshold, plan, at, b))
    ensures LogTells(b, Considered(threshold, plan, at, b), Clamp(b.alerts, at))
    ensures plan.Some? ==> forall o :: o in MemberIds(plan) <==> o in plan.value.members
  {
    var now := Clamp(b.alerts, at);
    if plan == None {
      NothingTells(b, now);
    } else {
      var ids := MemberIds(plan);
      AscendingSorts(plan.value.members.Keys);
      ConsiderAllTells(threshold, plan.value, now, b, ids, |ids|);
      assert ids[..|ids|] == ids;
    }
  }

  lemma {:induction false} BetweenIsUntouched(threshold: nat, plan: Option<CurrentPlan>, now: Instant, b: Book, mid: Book)
    requires Between(threshold, plan, now, b, mid)
    ensures Untouched(threshold, plan, now, b, mid)
  {
  }

  lemma {:induction false} EarlierRowTells(threshold: nat, plan: Option<CurrentPlan>, now: Instant, b: Book, mid: Book, after: Book, i: nat)
    requires Between(threshold, plan, now, b, mid) && FallenRows(threshold, plan, now, b, mid, after, |b.alerts|) && i < |b.alerts|
    requires plan.Some? ==> forall o :: o in MemberIds(plan) <==> o in plan.value.members
    ensures RowTells(threshold, plan, b.orders, now, b.alerts[i], after.alerts[i])
  {
    if plan.Some? {
      RiskIff(threshold, plan.value, b.orders, b.alerts[i].orderId, now);
    }
  }

  lemma {:induction false} AddedRowTells(threshold: nat, plan: Option<CurrentPlan>, now: Instant, b: Book, mid: Book, after: Book, j: nat)
    requires Between(threshold, plan, now, b, mid) && FallenRows(threshold, plan, now, b, mid, after, |b.alerts|)
    requires |b.alerts| <= j < |after.alerts|
    ensures NewRowTells(threshold, plan, b.orders, now, after.alerts[j])
  {
    if plan.Some? {
      assert AddedRow(threshold, plan.value, b.orders, MemberIds(plan), now, mid.alerts[j]);
      RiskIff(threshold, plan.value, b.orders, mid.alerts[j].orderId, now);
    }
  }

  /** Row by row: an earlier alert is kept with the numbers of now, or resolved for the reason that applies;
      every other alert is new and shows its numbers; and exactly the news is logged, once each. */
  lemma {:induction false} EvaluationTells(threshold: nat, plan: Option<CurrentPlan>, at: Instant, b: Book)
    requires Unique(b.alerts)
    ensures var after, now := Evaluated(threshold, plan, at, b), Clamp(b.alerts, at);
            && IsTimeOf(b.alerts, at, now) && |b.alerts| <= |after.alerts| && LogTells(b, after, now)
            && (forall i :: 0 <= i < |b.alerts| ==> RowTells(threshold, plan, b.orders, now, b.alerts[i], after.alerts[i]))
            && forall j :: |b.alerts| <= j < |after.alerts| ==> NewRowTells(threshold, plan, b.orders, now, after.alerts[j])
  {
    var now, mid := Clamp(b.alerts, at), Considered(threshold, plan, at, b);
    ClampIs(b.alerts, at);
    ConsideredTells(threshold, plan, at, b);
    BetweenIsUntouched(threshold, plan, now, b, mid);
    ResolveAllTells(threshold, plan, now, b, mid, |b.alerts|);
    var after := ResolveAll(threshold, plan, now, b, mid, |b.alerts|);
    forall i | 0 <= i < |b.alerts| ensures RowTells(threshold, plan, b.orders, now, b.alerts[i], after.alerts[i]) {
      EarlierRowTells(threshold, plan, now, b, mid, after, i);
    }
    forall j | |b.alerts| <= j < |after.alerts| ensures NewRowTells(threshold, plan, b.orders, now, after.alerts[j]) {
      AddedRowTells(threshold, plan, now, b, mid, after, j);
    }
  }

  /** The flag of an order: at risk now, or no longer of interest, or none of the evaluation's business. */
  ghost predicate FlagTells(threshold: nat, plan: Option<CurrentPlan>, b: Book, now: Instant, o: Id, was: Order, row: Order) {
    && row == was.(risk := row.risk)
    && if plan.Some? && o in plan.value.members then
         row.risk == AtRisk <==> Endangered(threshold, plan.value, b.orders, o, now)
       else if exists i :: 0 <= i < |b.alerts| && b.alerts[i].status == AlertActive && b.alerts[i].orderId == o then row.risk == Normal
       else row.risk == was.risk
  }

  /** Exactly the member orders at risk have an active alert, one each, and every flag agrees. */
  lemma {:induction false} AlertsAreTheEndangered(threshold: nat, plan: Option<CurrentPlan>, at: Instant, b: Book)
    requires Sound(b)
    ensures var after, now := Evaluated(threshold, plan, at, b), Clamp(b.alerts, at);
            && (forall i :: 0 <= i < |after.alerts| && after.alerts[i].status == AlertActive ==>
                 plan.Some? && after.alerts[i].planId == plan.value.id && after.alerts[i].orderId in plan.value.members)
            && Unique(after.alerts)
            && (plan.Some? ==> forall o :: o in plan.value.members && o in b.orders ==>
                 (HasAlert(after.alerts, plan.value.id, o) <==> Endangered(threshold, plan.value, b.orders, o, now)))
  {
    var after, now := Evaluated(threshold, plan, at, b), Clamp(b.alerts, at);
    EvaluationReconciles(threshold, plan, at, b);
    if plan.Some? {
      forall o | o in plan.value.members && o in b.orders
        ensures HasAlert(after.alerts, plan.value.id, o) <==> Endangered(threshold, plan.value, b.orders, o, now)
      {
        RiskFlagsDoNotMatter(threshold, plan.value, b.orders, after.orders, o, now);
        RiskIff(threshold, plan.value, b.orders, o, now);
      }
    }
  }

  lemma {:induction false} FlagsAreTold(threshold: nat, plan: Option<CurrentPlan>, at: Instant, b: Book, o: Id)
    requires Sound(b) && o in b.orders
    ensures o in Evaluated(threshold, plan, at, b).orders
    ensures FlagTells(threshold, plan, b, Clamp(b.alerts, at), o, b.orders[o], Evaluated(threshold, plan, at, b).orders[o])
  {
    var after, now, mid := Evaluated(threshold, plan, at, b), Clamp(b.alerts, at), Considered(threshold, plan, at, b);
    EvaluationReconciles(threshold, plan, at, b);
    if IsMember(plan, o) {
      RiskFlagsDoNotMatter(threshold, plan.value, b.orders, after.orders, o, now);
      RiskIff(threshold, plan.value, b.orders, o, now);
    } else {
      ConsideredTells(threshold, plan, at, b);
      BetweenIsUntouched(threshold, plan, now, b, mid);
      ResolveAllTells(threshold, plan, now, b, mid, |b.alerts|);
      StrangersKeepTheirFlag(threshold, plan, at, b, o);
      forall i | 0 <= i < |b.alerts| && b.alerts[i].orderId == o && b.alerts[i].status == AlertActive
        ensures Falls(threshold, plan, b, now, i)
      {
        if plan.Some? { assert AtRiskBy(threshold, plan.value, b.orders, o, now) == None; }
      }
    }
  }

  /** The loop over the members leaves other orders alone. */
  lemma {:induction false} StrangersKeepTheirFlag(threshold: nat, plan: Option<CurrentPlan>, at: Instant, b: Book, o: Id)
    requires Sound(b) && o in b.orders && !IsMember(plan, o)
    ensures o in Considered(threshold, plan, at, b).orders && Considered(threshold, plan, at, b).orders[o] == b.orders[o]
  {
    ConsideredIsPrepared(threshold, plan, at, b);
    if plan.Some? {
      AscendingSorts(plan.value.members.Keys);
    }
  }
}

/** What reconciliation achieves in one evaluation and what it keeps over every run of them. */
module AlertLaws {
  import opened Ordering
  import opened Domain
  import opened Risk
  import opened Alerts

  // ----- the log replays to the table -----

  /** What the changes of one alert tell: nothing yet, CREATED UPDATED*, or that and RESOLVED.
      `at` is the time of the last change. */
  datatype Tale = Untold | Open(reason: Reason, since: Instant, at: Instant) | Shut(reason: Reason, since: Instant, at: Instant) | Broken

  function Told(tale: Tale, c: Change): Tale {
    match tale
    case Untold => if c.kind == Created then Open(c.evidence.reason, c.recordedAt, c.recordedAt) else Broken
    case Open(_, since, at) =>
      if c.recordedAt < at || c.kind == Created then Broken
      else if c.kind == Updated then Open(c.evidence.reason, since, c.recordedAt)
      else Shut(c.evidence.reason, since, c.recordedAt)
    case _ => Broken
  }

  function Replay(log: seq<Change>, alertId: nat): Tale {
    if log == [] then Untold
    else
      var before := Replay(log[..|log| - 1], alertId);
      if log[|log| - 1].alertId == alertId then Told(before, log[|log| - 1]) else before
  }

  lemma {:induction false} ReplayOneMore(log: seq<Change>, c: Change, alertId: nat)
    ensures Replay(log + [c], alertId) == if c.alertId == alertId then Told(Replay(log, alertId), c) else Replay(log, alertId)
  {
    assert (log + [c])[..|log|] == log;
  }

  /** The row says what its changes tell, and its times are in order. */
  ghost predicate Tells(alert: Alert, tale: Tale) {
    && alert.detectedAt <= alert.lastEvaluatedAt
    && match alert.status
       case AlertActive =>
         && alert.resolvedAt == None && tale.Open?
         && tale.reason == alert.evidence.reason && tale.since == alert.detectedAt && tale.at <= alert.lastEvaluatedAt
       case AlertResolved =>
         && tale == Shut(alert.evidence.reason, alert.detectedAt, alert.lastEvaluatedAt)
         && alert.resolvedAt == Some(alert.lastEvaluatedAt)
  }

  ghost predicate ActiveFor(alerts: seq<Alert>, i: int, planId: Id, o: Id) {
    0 <= i < |alerts| && alerts[i].status == AlertActive && alerts[i].planId == planId && alerts[i].orderId == o
  }

  /** The partial unique index on active alerts. */
  ghost predicate Unique(alerts: seq<Alert>) {
    forall i, j, p, o :: ActiveFor(alerts, i, p, o) && ActiveFor(alerts, j, p, o) ==> i == j
  }

  ghost predicate LogOk(b: Book, k: int)
    requires 0 <= k < |b.log|
  {
    && b.log[k].alertId < |b.alerts| && b.log[k].id < b.cursor
    && b.log[k].recordedAt <= b.alerts[b.log[k].alertId].lastEvaluatedAt
  }

  ghost predicate InOrder(x: Change, y: Change) {
    x.id < y.id && x.recordedAt <= y.recordedAt
  }

  ghost predicate Sound(b: Book) {
    && (forall i :: 0 <= i < |b.alerts| ==> Tells(b.alerts[i], Replay(b.log, i)))
    && (forall i: nat :: |b.alerts| <= i ==> Replay(b.log, i) == Untold)
    && (forall k :: 0 <= k < |b.log| ==> LogOk(b, k))
    && (forall k, l :: 0 <= k < l < |b.log| ==> InOrder(b.log[k], b.log[l]))
    && Unique(b.alerts)
  }

  /** Nothing was evaluated after this instant. */
  ghost predicate UpTo(alerts: seq<Alert>, now: Instant) {
    forall i :: 0 <= i < |alerts| ==> alerts[i].lastEvaluatedAt <= now
  }

  lemma {:induction false} LatestBounds(alerts: seq<Alert>)
    ensures LatestEvaluation(alerts).Some? <==> alerts != []
    ensures alerts != [] ==> UpTo(alerts, LatestEvaluation(alerts).value)
    ensures alerts != [] ==> exists i :: 0 <= i < |alerts| && alerts[i].lastEvaluatedAt == LatestEvaluation(alerts).value
  {
    if alerts != [] {
      LatestBounds(alerts[..|alerts| - 1]);
      assert alerts[|alerts| - 1].lastEvaluatedAt <= LatestEvaluation(alerts).value;
      if |alerts| > 1 && alerts[|alerts| - 1].lastEvaluatedAt < LatestEvaluation(alerts).value {
        var i :| 0 <= i < |alerts| - 1 && alerts[..|alerts| - 1][i].lastEvaluatedAt == LatestEvaluation(alerts).value;
        assert alerts[i].lastEvaluatedAt == LatestEvaluation(alerts).value;
      }
    }
  }

  lemma {:induction false} ClampBounds(alerts: seq<Alert>, at: Instant)
    ensures at <= Clamp(alerts, at) && UpTo(alerts, Clamp(alerts, at))
  {
    LatestBounds(alerts);
  }

  lemma {:induction false} FindActiveIs(alerts: seq<Alert>, planId: Id, o: Id)
    ensures var found := FindActive(alerts, planId, o);
            if found.Some? then ActiveFor(alerts, found.value, planId, o) else forall i :: !ActiveFor(alerts, i, planId, o)
  {
    if alerts != [] {
      var front := alerts[..|alerts| - 1];
      FindActiveIs(front, planId, o);
      forall i | ActiveFor(alerts, i, planId, o) ensures i == |alerts| - 1 || ActiveFor(front, i, planId, o) {
      }
    }
  }

  // ----- the three writes keep the books sound -----

  lemma {:induction false} RaiseKeepsSound(b: Book, planId: Id, o: Id, e: Evidence, now: Instant)
    requires Sound(b) && UpTo(b.alerts, now) && forall i :: !ActiveFor(b.alerts, i, planId, o)
    ensures Sound(Raise(b, planId, o, e, now)) && UpTo(Raise(b, planId, o, e, now).alerts, now)
  {
    var after := Raise(b, planId, o, e, now);
    var c := Change(b.cursor, |b.alerts|, Created, now, e);
    assert after.log == b.log + [c];
    forall i: nat
      ensures Replay(after.log, i) == if i == |b.alerts| then Told(Replay(b.log, i), c) else Replay(b.log, i)
    {
      ReplayOneMore(b.log, c, i);
    }
    assert Replay(b.log, |b.alerts|) == Untold;
    AppendKeepsLog(b, after, c);
    forall i, j, p, q | ActiveFor(after.alerts, i, p, q) && ActiveFor(after.alerts, j, p, q) ensures i == j {
      assert i < |b.alerts| ==> ActiveFor(b.alerts, i, p, q);
      assert j < |b.alerts| ==> ActiveFor(b.alerts, j, p, q);
    }
  }

  /** Appending a change dated now keeps the log in order. */
  lemma {:induction false} AppendKeepsLog(b: Book, after: Book, c: Change)
    requires Sound(b) && UpTo(b.alerts, c.recordedAt)
    requires after.log == b.log + [c] && after.cursor == b.cursor + 1 && c.id == b.cursor
    requires |b.alerts| <= |after.alerts| && c.alertId < |after.alerts| && c.recordedAt <= after.alerts[c.alertId].lastEvaluatedAt
    requires forall i :: 0 <= i < |b.alerts| ==> b.alerts[i].lastEvaluatedAt <= after.alerts[i].lastEvaluatedAt
    ensures forall k :: 0 <= k < |after.log| ==> LogOk(after, k)
    ensures forall k, l :: 0 <= k < l < |after.log| ==> InOrder(after.log[k], after.log[l])
  {
    forall k | 0 <= k < |after.log| ensures LogOk(after, k) {
      if k < |b.log| {
        assert LogOk(b, k) && after.log[k] == b.log[k];
      }
    }
    forall k, l | 0 <= k < l < |after.log| ensures InOrder(after.log[k], after.log[l]) {
      assert LogOk(b, k);
      if l < |b.log| {
        assert InOrder(b.log[k], b.log[l]);
      }
    }
  }

  /** Row i of the refreshed table, before anything is logged. */
  function Refreshed(b: Book, i: nat, e: Evidence, now: Instant): Book
    requires i < |b.alerts|
  {
    b.(alerts := b.alerts[i := b.alerts[i].(evidence := e, lastEvaluatedAt := now)])
  }

  lemma {:induction false} SilentRefreshKeepsSound(b: Book, i: nat, e: Evidence, now: Instant)
    requires Sound(b) && UpTo(b.alerts, now) && i < |b.alerts| && b.alerts[i].status == AlertActive
    requires b.alerts[i].evidence.reason == e.reason
    ensures Sound(Refreshed(b, i, e, now)) && UpTo(Refreshed(b, i, e, now).alerts, now)
  {
    var after := Refreshed(b, i, e, now);
    assert Tells(b.alerts[i], Replay(b.log, i));
    KeysKept(b.alerts, i, after.alerts[i]);
    forall k | 0 <= k < |after.log| ensures LogOk(after, k) {
      assert LogOk(b, k);
    }
  }

  lemma {:induction false} LoudRefreshKeepsSound(b: Book, i: nat, e: Evidence, now: Instant)
    requires Sound(b) && UpTo(b.alerts, now) && i < |b.alerts| && b.alerts[i].status == AlertActive
    ensures var after := Logged(Refreshed(b, i, e, now), i, Updated, now, e); Sound(after) && UpTo(after.alerts, now)
  {
    var after := Logged(Refreshed(b, i, e, now), i, Updated, now, e);
    var c := Change(b.cursor, i, Updated, now, e);
    assert after.log == b.log + [c];
    forall j: nat
      ensures Replay(after.log, j) == if j == i then Told(Replay(b.log, j), c) else Replay(b.log, j)
    {
      ReplayOneMore(b.log, c, j);
    }
    assert Tells(b.alerts[i], Replay(b.log, i));
    AppendKeepsLog(b, after, c);
    KeysKept(b.alerts, i, after.alerts[i]);
  }

  lemma {:induction false} RefreshKeepsSound(b: Book, i: nat, e: Evidence, now: Instant)
    requires Sound(b) && UpTo(b.alerts, now) && i < |b.alerts| && b.alerts[i].status == AlertActive
    ensures Sound(Refresh(b, i, e, now)) && UpTo(Refresh(b, i, e, now).alerts, now)
  {
    if b.alerts[i].evidence.reason == e.reason {
      SilentRefreshKeepsSound(b, i, e, now);
    } else {
      LoudRefreshKeepsSound(b, i, e, now);
    }
  }

  /** Changing one row without activating it keeps the index. */
  lemma {:induction false} KeysKept(x: seq<Alert>, i: nat, row: Alert)
    requires i < |x| && Unique(x) && row.planId == x[i].planId && row.orderId == x[i].orderId
    requires row.status == AlertActive ==> x[i].status == AlertActive
    ensures Unique(x[i := row])
  {
    var y := x[i := row];
    forall j, k, p, o | ActiveFor(y, j, p, o) && ActiveFor(y, k, p, o) ensures j == k {
      assert ActiveFor(x, j, p, o) && ActiveFor(x, k, p, o);
    }
  }

  lemma {:induction false} ResolveKeepsSound(plan: Option<CurrentPlan>, now: Instant, b: Book, i: nat)
    requires Sound(b) && UpTo(b.alerts, now) && i < |b.alerts| && b.alerts[i].status == AlertActive
    ensures Sound(Resolve(plan, now, b, i)) && UpTo(Resolve(plan, now, b, i).alerts, now)
  {
    var after := Resolve(plan, now, b, i);
    var closed := Closed(plan, b.alerts[i], now);
    var c := Change(b.cursor, i, Resolved, now, closed.evidence);
    assert after.log == b.log + [c] && after.alerts == b.alerts[i := closed];
    forall j: nat
      ensures Replay(after.log, j) == if j == i then Told(Replay(b.log, j), c) else Replay(b.log, j)
    {
      ReplayOneMore(b.log, c, j);
    }
    assert Tells(b.alerts[i], Replay(b.log, i));
    AppendKeepsLog(b, after, c);
    KeysKept(b.alerts, i, closed);
  }

  // ----- the loop over the members -----

  ghost predicate SameIdentity(x: Alert, y: Alert) {
    y.planId == x.planId && y.orderId == x.orderId && y.status == x.status
  }

  /** The alert concerns one of these orders of the plan, which is at risk. */
  ghost predicate Due(threshold: nat, plan: CurrentPlan, orders: map<Id, Order>, ids: seq<Id>, now: Instant, alert: Alert) {
    && alert.status == AlertActive && alert.planId == plan.id && alert.orderId in ids
    && AtRiskBy(threshold, plan, orders, alert.orderId, now).Some?
  }

  ghost predicate UpToDate(threshold: nat, plan: CurrentPlan, orders: map<Id, Order>, now: Instant, alert: Alert) {
    AtRiskBy(threshold, plan, orders, alert.orderId, now) == Some(alert.evidence) && alert.lastEvaluatedAt == now
  }

  ghost predicate HasAlert(alerts: seq<Alert>, planId: Id, o: Id) {
    exists i :: ActiveFor(alerts, i, planId, o)
  }

  /** The alerts after the members `ids`: those are settled, older rows keep their identity. */
  ghost predicate AlertsMidway(threshold: nat, plan: CurrentPlan, now: Instant, before: Book, alerts: seq<Alert>, ids: seq<Id>) {
    && |before.alerts| <= |alerts|
    && (forall i :: 0 <= i < |before.alerts| ==> SameIdentity(before.alerts[i], alerts[i]))
    && (forall j :: |before.alerts| <= j < |alerts| ==> Due(threshold, plan, before.orders, ids, now, alerts[j]))
    && (forall j :: 0 <= j < |alerts| && Due(threshold, plan, before.orders, ids, now, alerts[j])
          ==> UpToDate(threshold, plan, before.orders, now, alerts[j]))
    && (forall o :: o in ids && AtRiskBy(threshold, plan, before.orders, o, now).Some? ==> HasAlert(alerts, plan.id, o))
  }

  function Flag(threshold: nat, plan: CurrentPlan, orders: map<Id, Order>, o: Id, now: Instant): RiskStatus {
    if AtRiskBy(threshold, plan, orders, o, now).Some? then AtRisk else Normal
  }

  /** The orders after the members `ids`. */
  ghost predicate OrdersMidway(threshold: nat, plan: CurrentPlan, now: Instant, before: map<Id, Order>, orders: map<Id, Order>, ids: seq<Id>) {
    && SameButRisk(before, orders)
    && forall o :: o in before ==> orders[o].risk == if o in ids then Flag(threshold, plan, before, o, now) else before[o].risk
  }

  ghost predicate Midway(threshold: nat, plan: CurrentPlan, now: Instant, before: Book, b: Book, ids: seq<Id>) {
    && Sound(b) && UpTo(b.alerts, now)
    && AlertsMidway(threshold, plan, now, before, b.alerts, ids)
    && OrdersMidway(threshold, plan, now, before.orders, b.orders, ids)
  }

  lemma {:induction false} RaiseIsMidway(threshold: nat, plan: CurrentPlan, now: Instant, before: Book, b: Book, ids: seq<Id>, o: Id, e: Evidence)
    requires Sound(b) && UpTo(b.alerts, now) && AlertsMidway(threshold, plan, now, before, b.alerts, ids)
    requires o !in ids && AtRiskBy(threshold, plan, before.orders, o, now) == Some(e)
    requires FindActive(before.alerts, plan.id, o) == None
    ensures var after := Raise(b, plan.id, o, e, now);
            Sound(after) && UpTo(after.alerts, now) && AlertsMidway(threshold, plan, now, before, after.alerts, ids + [o])
  {
    var after := Raise(b, plan.id, o, e, now);
    FindActiveIs(before.alerts, plan.id, o);
    forall i ensures !ActiveFor(b.alerts, i, plan.id, o) {
      if 0 <= i < |before.alerts| {
        assert SameIdentity(before.alerts[i], b.alerts[i]);
        assert !ActiveFor(before.alerts, i, plan.id, o);
      } else if |before.alerts| <= i < |b.alerts| {
        assert Due(threshold, plan, before.orders, ids, now, b.alerts[i]);
      }
    }
    RaiseKeepsSound(b, plan.id, o, e, now);
    forall j | |before.alerts| <= j < |after.alerts| ensures Due(threshold, plan, before.orders, ids + [o], now, after.alerts[j]) {
      if j < |b.alerts| {
        assert Due(threshold, plan, before.orders, ids, now, b.alerts[j]);
      }
    }
    forall j | 0 <= j < |after.alerts| && Due(threshold, plan, before.orders, ids + [o], now, after.alerts[j])
      ensures UpToDate(threshold, plan, before.orders, now, after.alerts[j])
    {
      if j < |b.alerts| {
        assert !ActiveFor(b.alerts, j, plan.id, o);
        assert Due(threshold, plan, before.orders, ids, now, b.alerts[j]);
      }
    }
    forall q | q in ids + [o] && AtRiskBy(threshold, plan, before.orders, q, now).Some? ensures HasAlert(after.alerts, plan.id, q) {
      if q == o {
        assert ActiveFor(after.alerts, |b.alerts|, plan.id, o);
      } else {
        var i :| ActiveFor(b.alerts, i, plan.id, q);
        assert ActiveFor(after.alerts, i, plan.id, q);
      }
    }
  }

  lemma {:induction false} RefreshIsMidway(threshold: nat, plan: CurrentPlan, now: Instant, before: Book, b: Book, ids: seq<Id>, o: Id, i: nat, e: Evidence)
    requires Sound(b) && UpTo(b.alerts, now) && AlertsMidway(threshold, plan, now, before, b.alerts, ids)
    requires o !in ids && AtRiskBy(threshold, plan, before.orders, o, now) == Some(e)
    requires ActiveFor(before.alerts, i, plan.id, o)
    ensures var after := Refresh(b, i, e, now);
            Sound(after) && UpTo(after.alerts, now) && AlertsMidway(threshold, plan, now, before, after.alerts, ids + [o])
  {
    assert SameIdentity(before.alerts[i], b.alerts[i]);
    assert ActiveFor(b.alerts, i, plan.id, o);
    RefreshKeepsSound(b, i, e, now);
    var after := Refresh(b, i, e, now);
    assert after.alerts == Refreshed(b, i, e, now).alerts;
    forall j | |before.alerts| <= j < |after.alerts| ensures Due(threshold, plan, before.orders, ids + [o], now, after.alerts[j]) {
      assert Due(threshold, plan, before.orders, ids, now, b.alerts[j]);
    }
    forall j | 0 <= j < |after.alerts| && Due(threshold, plan, before.orders, ids + [o], now, after.alerts[j])
      ensures UpToDate(threshold, plan, before.orders, now, after.alerts[j])
    {
      if j != i {
        assert ActiveFor(b.alerts, j, plan.id, b.alerts[j].orderId);
        assert Due(threshold, plan, before.orders, ids, now, b.alerts[j]);
      }
    }
    forall q | q in ids + [o] && AtRiskBy(threshold, plan, before.orders, q, now).Some? ensures HasAlert(after.alerts, plan.id, q) {
      if q == o {
        assert ActiveFor(after.alerts, i, plan.id, o);
      } else {
        var k :| ActiveFor(b.alerts, k, plan.id, q);
        assert ActiveFor(after.alerts, k, plan.id, q);
      }
    }
  }

  /** An order that is not at risk needs no alert. */
  lemma {:induction false} IdleIsMidway(threshold: nat, plan: CurrentPlan, now: Instant, before: Book, alerts: seq<Alert>, ids: seq<Id>, o: Id)
    requires AlertsMidway(threshold, plan, now, before, alerts, ids)
    requires AtRiskBy(threshold, plan, before.orders, o, now) == None
    ensures AlertsMidway(threshold, plan, now, before, alerts, ids + [o])
  {
    forall j | |before.alerts| <= j < |alerts| ensures Due(threshold, plan, before.orders, ids + [o], now, alerts[j]) {
      assert Due(threshold, plan, before.orders, ids, now, alerts[j]);
    }
    forall j | 0 <= j < |alerts| && Due(threshold, plan, before.orders, ids + [o], now, alerts[j])
      ensures UpToDate(threshold, plan, before.orders, now, alerts[j])
    {
      assert Due(threshold, plan, before.orders, ids, now, alerts[j]);
    }
  }

  lemma {:induction false} SoundIgnoresOrders(b: Book, orders: map<Id, Order>)
    requires Sound(b)
    ensures Sound(b.(orders := orders))
  {
    var c := b.(orders := orders);
    forall k | 0 <= k < |c.log| ensures LogOk(c, k) {
      assert LogOk(b, k);
    }
  }

  lemma {:induction false} FlagIsMidway(threshold: nat, plan: CurrentPlan, now: Instant, before: map<Id, Order>, orders: map<Id, Order>, ids: seq<Id>, o: Id)
    requires OrdersMidway(threshold, plan, now, before, orders, ids)
    ensures o !in orders ==> OrdersMidway(threshold, plan, now, before, orders, ids + [o])
    ensures o in orders ==>
              OrdersMidway(threshold, plan, now, before,
                           orders[o := orders[o].(risk := Flag(threshold, plan, before, o, now))], ids + [o])
  {
  }

  lemma {:induction false} ConsiderAlert(threshold: nat, plan: CurrentPlan, now: Instant, before: Book, b: Book, ids: seq<Id>, o: Id)
    requires Sound(b) && UpTo(b.alerts, now) && AlertsMidway(threshold, plan, now, before, b.alerts, ids)
    requires o !in ids && AtRiskBy(threshold, plan, before.orders, o, now).Some?
    ensures var e := AtRiskBy(threshold, plan, before.orders, o, now).value;
            var found := FindActive(before.alerts, plan.id, o);
            var after := if found == None then Raise(b, plan.id, o, e, now) else Refresh(b, found.value, e, now);
            Sound(after) && UpTo(after.alerts, now) && AlertsMidway(threshold, plan, now, before, after.alerts, ids + [o])
  {
    FindActiveIs(before.alerts, plan.id, o);
    var e := AtRiskBy(threshold, plan, before.orders, o, now).value;
    var found := FindActive(before.alerts, plan.id, o);
    if found == None {
      RaiseIsMidway(threshold, plan, now, before, b, ids, o, e);
    } else {
      RefreshIsMidway(threshold, plan, now, before, b, ids, o, found.value, e);
    }
  }

  lemma {:induction false} ConsiderIsMidway(threshold: nat, plan: CurrentPlan, now: Instant, before: Book, b: Book, ids: seq<Id>, o: Id)
    requires Midway(threshold, plan, now, before, b, ids) && o !in ids
    ensures Midway(threshold, plan, now, before, Consider(threshold, plan, now, before.alerts, b, o), ids + [o])
  {
    RiskFlagsDoNotMatter(threshold, plan, before.orders, b.orders, o, now);
    FlagIsMidway(threshold, plan, now, before.orders, b.orders, ids, o);
    var evidence := AtRiskBy(threshold, plan, before.orders, o, now);
    if evidence == None {
      IdleIsMidway(threshold, plan, now, before, b.alerts, ids, o);
      if o in b.orders {
        SoundIgnoresOrders(b, WithRisk(b, o, Normal).orders);
      }
    } else {
      var marked := WithRisk(b, o, AtRisk);
      SoundIgnoresOrders(b, marked.orders);
      ConsiderAlert(threshold, plan, now, before, marked, ids, o);
    }
  }

  lemma {:induction false} OneMoreConsidered(threshold: nat, plan: CurrentPlan, now: Instant, before: Book, b: Book, ids: seq<Id>, n: nat)
    requires n < |ids| && Increasing(ids) && Midway(threshold, plan, now, before, b, ids[..n])
    ensures Midway(threshold, plan, now, before, Consider(threshold, plan, now, before.alerts, b, ids[n]), ids[..n + 1])
  {
    assert ids[..n + 1] == ids[..n] + [ids[n]];
    assert ids[n] !in ids[..n];
    ConsiderIsMidway(threshold, plan, now, before, b, ids[..n], ids[n]);
  }

  lemma {:induction false} AllConsidered(threshold: nat, plan: CurrentPlan, now: Instant, b: Book, ids: seq<Id>, n: nat)
    requires Sound(b) && UpTo(b.alerts, now) && n <= |ids| && Increasing(ids)
    ensures Midway(threshold, plan, now, b, ConsiderAll(threshold, plan, now, b, ids, n), ids[..n])
  {
    if 0 < n {
      AllConsidered(threshold, plan, now, b, ids, n - 1);
      OneMoreConsidered(threshold, plan, now, b, ConsiderAll(threshold, plan, now, b, ids, n - 1), ids, n - 1);
    }
  }

  // ----- the loop over the earlier alerts -----

  /** After rows below n: those left active are backed, other rows and member orders are as
      they were. */
  ghost predicate RowsResolving(threshold: nat, plan: Option<CurrentPlan>, now: Instant, before: Book, b: Book, after: Book, n: nat) {
    && |after.alerts| == |b.alerts|
    && (forall i :: 0 <= i < |b.alerts| ==> RowResolving(threshold, plan, now, before, b.alerts[i], after.alerts[i], i, n))
    && SameButRisk(b.orders, after.orders)
    && (forall o :: o in b.orders && IsMember(plan, o) ==> after.orders[o] == b.orders[o])
  }

  ghost predicate RowResolving(threshold: nat, plan: Option<CurrentPlan>, now: Instant, before: Book, x: Alert, y: Alert, i: int, n: int) {
    && (i < n && y.status == AlertActive ==> Backed(threshold, plan, before.orders, x, now))
    && (n <= i || Backed(threshold, plan, before.orders, x, now) ==> y == x)
  }

  ghost predicate Resolving(threshold: nat, plan: Option<CurrentPlan>, now: Instant, before: Book, b: Book, after: Book, n: nat) {
    Sound(after) && UpTo(after.alerts, now) && RowsResolving(threshold, plan, now, before, b, after, n)
  }

  lemma {:induction false} ResolveIsResolving(threshold: nat, plan: Option<CurrentPlan>, now: Instant, before: Book, b: Book, sofar: Book, n: nat)
    requires RowsResolving(threshold, plan, now, before, b, sofar, n) && n < |b.alerts|
    requires b.alerts[n].status == AlertActive && !Backed(threshold, plan, before.orders, b.alerts[n], now)
    ensures RowsResolving(threshold, plan, now, before, b, Resolve(plan, now, sofar, n), n + 1)
  {
    forall i | 0 <= i < |b.alerts|
      ensures RowResolving(threshold, plan, now, before, b.alerts[i], Resolve(plan, now, sofar, n).alerts[i], i, n + 1)
    {
      assert RowResolving(threshold, plan, now, before, b.alerts[i], sofar.alerts[i], i, n);
    }
  }

  lemma {:induction false} KeepIsResolving(threshold: nat, plan: Option<CurrentPlan>, now: Instant, before: Book, b: Book, sofar: Book, n: nat)
    requires RowsResolving(threshold, plan, now, before, b, sofar, n) && n < |b.alerts|
    requires b.alerts[n].status != AlertActive || Backed(threshold, plan, before.orders, b.alerts[n], now)
    ensures RowsResolving(threshold, plan, now, before, b, sofar, n + 1)
  {
    forall i | 0 <= i < |b.alerts| ensures RowResolving(threshold, plan, now, before, b.alerts[i], sofar.alerts[i], i, n + 1) {
      assert RowResolving(threshold, plan, now, before, b.alerts[i], sofar.alerts[i], i, n);
    }
  }

  lemma {:induction false} BackedByIdentity(threshold: nat, plan: Option<CurrentPlan>, orders: map<Id, Order>, x: Alert, y: Alert, now: Instant)
    requires SameIdentity(x, y)
    ensures Backed(threshold, plan, orders, x, now) == Backed(threshold, plan, orders, y, now)
  {
  }

  lemma {:induction false} OneMoreResolves(threshold: nat, plan: Option<CurrentPlan>, now: Instant, before: Book, b: Book, n: nat)
    requires n < |before.alerts| <= |b.alerts| && SameIdentity(before.alerts[n], b.alerts[n])
    requires RowsResolving(threshold, plan, now, before, b, ResolveAll(threshold, plan, now, before, b, n), n)
    ensures RowsResolving(threshold, plan, now, before, b, ResolveAll(threshold, plan, now, before, b, n + 1), n + 1)
  {
    var x, sofar := before.alerts[n], ResolveAll(threshold, plan, now, before, b, n);
    BackedByIdentity(threshold, plan, before.orders, x, b.alerts[n], now);
    if x.status == AlertActive && !Backed(threshold, plan, before.orders, x, now) {
      ResolveIsResolving(threshold, plan, now, before, b, sofar, n);
    } else {
      KeepIsResolving(threshold, plan, now, before, b, sofar, n);
    }
  }

  lemma {:induction false} ResolveAllRows(threshold: nat, plan: Option<CurrentPlan>, now: Instant, before: Book, b: Book, n: nat)
    requires n <= |before.alerts| <= |b.alerts|
    requires forall i :: 0 <= i < |before.alerts| ==> SameIdentity(before.alerts[i], b.alerts[i])
    ensures RowsResolving(threshold, plan, now, before, b, ResolveAll(threshold, plan, now, before, b, n), n)
  {
    for k := 0 to n
      invariant RowsResolving(threshold, plan, now, before, b, ResolveAll(threshold, plan, now, before, b, k), k)
    {
      OneMoreResolves(threshold, plan, now, before, b, k);
    }
  }

  ghost predicate SoundBy(b: Book, now: Instant) {
    Sound(b) && UpTo(b.alerts, now)
  }

  lemma {:induction false} NextStaysSound(threshold: nat, plan: Option<CurrentPlan>, now: Instant, before: Book, b: Book, n: nat)
    requires n < |before.alerts| <= |b.alerts|
    requires forall i :: 0 <= i < |before.alerts| ==> SameIdentity(before.alerts[i], b.alerts[i])
    ensures SoundBy(ResolveAll(threshold, plan, now, before, b, n), now) ==> SoundBy(ResolveAll(threshold, plan, now, before, b, n + 1), now)
  {
    var x, sofar := before.alerts[n], ResolveAll(threshold, plan, now, before, b, n);
    ResolveAllRows(threshold, plan, now, before, b, n);
    assert RowResolving(threshold, plan, now, before, b.alerts[n], sofar.alerts[n], n, n);
    if SoundBy(sofar, now) && x.status == AlertActive && !Backed(threshold, plan, before.orders, x, now) {
      ResolveKeepsSound(plan, now, sofar, n);
    }
  }

  lemma {:induction false} ResolveAllSound(threshold: nat, plan: Option<CurrentPlan>, now: Instant, before: Book, b: Book, n: nat)
    requires n <= |before.alerts| <= |b.alerts|
    requires forall i :: 0 <= i < |before.alerts| ==> SameIdentity(before.alerts[i], b.alerts[i])
    ensures SoundBy(b, now) ==> SoundBy(ResolveAll(threshold, plan, now, before, b, n), now)
  {
    for k := 0 to n
      invariant SoundBy(b, now) ==> SoundBy(ResolveAll(threshold, plan, now, before, b, k), now)
    {
      NextStaysSound(threshold, plan, now, before, b, k);
    }
  }

  lemma {:induction false} ResolveAllResolves(threshold: nat, plan: Option<CurrentPlan>, now: Instant, before: Book, b: Book, n: nat)
    requires Sound(b) && UpTo(b.alerts, now) && n <= |before.alerts| <= |b.alerts|
    requires forall i :: 0 <= i < |before.alerts| ==> SameIdentity(before.alerts[i], b.alerts[i])
    ensures Resolving(threshold, plan, now, before, b, ResolveAll(threshold, plan, now, before, b, n), n)
  {
    ResolveAllSound(threshold, plan, now, before, b, n);
    ResolveAllRows(threshold, plan, now, before, b, n);
  }

  // ----- one evaluation -----

  /** The alerts are exactly the orders at risk now, with the evidence of now, and the risk flag
      of every member order agrees. */
  ghost predicate Reconciled(threshold: nat, plan: Option<CurrentPlan>, now: Instant, b: Book) {
    && UpTo(b.alerts, now)
    && (forall i :: 0 <= i < |b.alerts| && b.alerts[i].status == AlertActive ==>
          plan.Some? && b.alerts[i].planId == plan.value.id && UpToDate(threshold, plan.value, b.orders, now, b.alerts[i]))
    && (plan.Some? ==> forall o :: o in b.orders && o in plan.value.members ==>
          && b.orders[o].risk == Flag(threshold, plan.value, b.orders, o, now)
          && (b.orders[o].risk == AtRisk <==> HasAlert(b.alerts, plan.value.id, o)))
  }

  /** The table between the two loops. */
  ghost predicate Prepared(threshold: nat, plan: Option<CurrentPlan>, now: Instant, b: Book, mid: Book) {
    && Sound(mid) && UpTo(mid.alerts, now) && SameButRisk(b.orders, mid.orders) && |b.alerts| <= |mid.alerts|
    && (forall i :: 0 <= i < |b.alerts| ==> SameIdentity(b.alerts[i], mid.alerts[i]))
    && (plan == None ==> mid == b)
    && (plan.Some? ==> Midway(threshold, plan.value, now, b, mid, MemberIds(plan)))
  }

  lemma {:induction false} ConsideredIsPrepared(threshold: nat, plan: Option<CurrentPlan>, at: Instant, b: Book)
    requires Sound(b)
    ensures Prepared(threshold, plan, Clamp(b.alerts, at), b, Considered(threshold, plan, at, b))
  {
    ClampBounds(b.alerts, at);
    if plan.Some? {
      AscendingSorts(plan.value.members.Keys);
      var ids := MemberIds(plan);
      AllConsidered(threshold, plan.value, Clamp(b.alerts, at), b, ids, |ids|);
      assert ids[..|ids|] == ids;
    }
  }

  lemma {:induction false} ActiveRowIsDue(threshold: nat, plan: Option<CurrentPlan>, now: Instant, b: Book, mid: Book, after: Book, i: nat)
    requires Prepared(threshold, plan, now, b, mid) && Resolving(threshold, plan, now, b, mid, after, |b.alerts|)
    requires i < |after.alerts| && after.alerts[i].status == AlertActive
    ensures plan.Some? && after.alerts[i].planId == plan.value.id
    ensures UpToDate(threshold, plan.value, b.orders, now, after.alerts[i])
  {
    if i < |b.alerts| {
      assert Backed(threshold, plan, b.orders, mid.alerts[i], now);
      AscendingSorts(plan.value.members.Keys);
      assert Due(threshold, plan.value, b.orders, MemberIds(plan), now, mid.alerts[i]);
    } else {
      assert Due(threshold, plan.value, b.orders, MemberIds(plan), now, mid.alerts[i]);
    }
  }

  lemma {:induction false} DueOrderHasAlert(threshold: nat, plan: Option<CurrentPlan>, now: Instant, b: Book, mid: Book, after: Book, o: Id)
    requires Prepared(threshold, plan, now, b, mid) && Resolving(threshold, plan, now, b, mid, after, |b.alerts|)
    requires plan.Some? && AtRiskBy(threshold, plan.value, b.orders, o, now).Some?
    ensures HasAlert(after.alerts, plan.value.id, o)
  {
    AscendingSorts(plan.value.members.Keys);
    var i :| ActiveFor(mid.alerts, i, plan.value.id, o);
    assert Backed(threshold, plan, b.orders, mid.alerts[i], now);
    assert ActiveFor(after.alerts, i, plan.value.id, o);
  }

  lemma {:induction false} SettledOrder(threshold: nat, plan: Option<CurrentPlan>, now: Instant, b: Book, mid: Book, after: Book, o: Id)
    requires Prepared(threshold, plan, now, b, mid) && Resolving(threshold, plan, now, b, mid, after, |b.alerts|)
    requires plan.Some? && o in plan.value.members && o in after.orders
    ensures after.orders[o].risk == Flag(threshold, plan.value, b.orders, o, now)
    ensures after.orders[o].risk == AtRisk <==> HasAlert(after.alerts, plan.value.id, o)
  {
    AscendingSorts(plan.value.members.Keys);
    assert IsMember(plan, o);
    if after.orders[o].risk == AtRisk {
      DueOrderHasAlert(threshold, plan, now, b, mid, after, o);
    }
    if HasAlert(after.alerts, plan.value.id, o) {
      var i :| ActiveFor(after.alerts, i, plan.value.id, o);
      ActiveRowIsDue(threshold, plan, now, b, mid, after, i);
    }
  }

  /** Reconciliation is exact: whatever the alerts were, after an evaluation the active ones are
      exactly the orders of the current plan that are at risk at the clamped time, and the log
      still replays to the table. */
  lemma {:induction false} EvaluationReconciles(threshold: nat, plan: Option<CurrentPlan>, at: Instant, b: Book)
    requires Sound(b)
    ensures var after := Evaluated(threshold, plan, at, b);
            Sound(after) && SameButRisk(b.orders, after.orders) && Reconciled(threshold, plan, Clamp(b.alerts, at), after)
  {
    var now, mid := Clamp(b.alerts, at), Considered(threshold, plan, at, b);
    ConsideredIsPrepared(threshold, plan, at, b);
    ResolveAllResolves(threshold, plan, now, b, mid, |b.alerts|);
    PreparedReconciles(threshold, plan, now, b, mid, Evaluated(threshold, plan, at, b));
  }

  lemma {:induction false} PreparedReconciles(threshold: nat, plan: Option<CurrentPlan>, now: Instant, b: Book, mid: Book, after: Book)
    requires Prepared(threshold, plan, now, b, mid) && Resolving(threshold, plan, now, b, mid, after, |b.alerts|)
    ensures SameButRisk(b.orders, after.orders) && Reconciled(threshold, plan, now, after)
  {
    forall i | 0 <= i < |after.alerts| && after.alerts[i].status == AlertActive
      ensures plan.Some? && after.alerts[i].planId == plan.value.id
      ensures UpToDate(threshold, plan.value, after.orders, now, after.alerts[i])
    {
      ActiveRowIsDue(threshold, plan, now, b, mid, after, i);
      RiskFlagsDoNotMatter(threshold, plan.value, b.orders, after.orders, after.alerts[i].orderId, now);
    }
    if plan.Some? {
      forall o | o in after.orders && o in plan.value.members
        ensures after.orders[o].risk == Flag(threshold, plan.value, after.orders, o, now)
        ensures after.orders[o].risk == AtRisk <==> HasAlert(after.alerts, plan.value.id, o)
      {
        SettledOrder(threshold, plan, now, b, mid, after, o);
        RiskFlagsDoNotMatter(threshold, plan.value, b.orders, after.orders, o, now);
      }
    }
  }

  // ----- a second run changes nothing -----

  lemma {:induction false} ClampIsStable(before: seq<Alert>, after: seq<Alert>, at: Instant)
    requires |before| <= |after| && UpTo(after, Clamp(before, at))
    requires forall i :: 0 <= i < |before| ==> before[i].lastEvaluatedAt <= after[i].lastEvaluatedAt
    ensures Clamp(after, at) == Clamp(before, at)
  {
    LatestBounds(before);
    LatestBounds(after);
    if before != [] {
      var i :| 0 <= i < |before| && before[i].lastEvaluatedAt == LatestEvaluation(before).value;
      assert before[i].lastEvaluatedAt <= after[i].lastEvaluatedAt;
    }
  }

  lemma {:induction false} ConsiderSettled(threshold: nat, plan: CurrentPlan, now: Instant, b: Book, o: Id)
    requires Reconciled(threshold, Some(plan), now, b) && o in plan.members
    ensures Consider(threshold, plan, now, b.alerts, b, o) == b
  {
    if o in b.orders && AtRiskBy(threshold, plan, b.orders, o, now).Some? {
      FindActiveIs(b.alerts, plan.id, o);
      assert HasAlert(b.alerts, plan.id, o);
      var i := FindActive(b.alerts, plan.id, o).value;
      assert UpToDate(threshold, plan, b.orders, now, b.alerts[i]);
      assert b.alerts[i := b.alerts[i]] == b.alerts;
      var marked := WithRisk(b, o, AtRisk);
      assert marked.orders == b.orders;
    } else if o in b.orders {
      assert WithRisk(b, o, Normal).orders == b.orders;
    }
  }

  lemma {:induction false} ConsiderAllSettled(threshold: nat, plan: CurrentPlan, now: Instant, b: Book, ids: seq<Id>, n: nat)
    requires Reconciled(threshold, Some(plan), now, b) && n <= |ids| && forall o :: o in ids ==> o in plan.members
    ensures ConsiderAll(threshold, plan, now, b, ids, n) == b
  {
    if 0 < n {
      ConsiderAllSettled(threshold, plan, now, b, ids, n - 1);
      ConsiderSettled(threshold, plan, now, b, ids[n - 1]);
    }
  }

  lemma {:induction false} ResolveAllSettled(threshold: nat, plan: Option<CurrentPlan>, now: Instant, b: Book, n: nat)
    requires Reconciled(threshold, plan, now, b) && n <= |b.alerts|
    ensures ResolveAll(threshold, plan, now, b, b, n) == b
  {
    if 0 < n {
      ResolveAllSettled(threshold, plan, now, b, n - 1);
      if b.alerts[n - 1].status == AlertActive {
        assert UpToDate(threshold, plan.value, b.orders, now, b.alerts[n - 1]);
      }
    }
  }

  lemma {:induction false} SettledStaysPut(threshold: nat, plan: Option<CurrentPlan>, at: Instant, b: Book)
    requires Reconciled(threshold, plan, Clamp(b.alerts, at), b)
    ensures Evaluated(threshold, plan, at, b) == b
  {
    var now := Clamp(b.alerts, at);
    if plan.Some? {
      AscendingSorts(plan.value.members.Keys);
      ConsiderAllSettled(threshold, plan.value, now, b, MemberIds(plan), |MemberIds(plan)|);
    }
    ResolveAllSettled(threshold, plan, now, b, |b.alerts|);
  }

  /** No row is ever evaluated backwards in time. */
  lemma {:induction false} ConsiderAllForward(threshold: nat, plan: CurrentPlan, now: Instant, b: Book, ids: seq<Id>, n: nat)
    requires n <= |ids| && UpTo(b.alerts, now)
    ensures var after := ConsiderAll(threshold, plan, now, b, ids, n);
            UpTo(after.alerts, now) && forall i :: 0 <= i < |b.alerts| ==> b.alerts[i].lastEvaluatedAt <= after.alerts[i].lastEvaluatedAt
  {
    if 0 < n { ConsiderAllForward(threshold, plan, now, b, ids, n - 1); }
  }

  lemma {:induction false} ResolveAllForward(threshold: nat, plan: Option<CurrentPlan>, now: Instant, before: Book, b: Book, n: nat)
    requires n <= |before.alerts| <= |b.alerts| && UpTo(b.alerts, now)
    ensures var after := ResolveAll(threshold, plan, now, before, b, n);
            UpTo(after.alerts, now) && forall i :: 0 <= i < |b.alerts| ==> b.alerts[i].lastEvaluatedAt <= after.alerts[i].lastEvaluatedAt
  {
    if 0 < n { ResolveAllForward(threshold, plan, now, before, b, n - 1); }
  }

  /** An immediate second evaluation on unchanged facts creates, updates and resolves nothing:
      it leaves alerts, log, orders and cursor as they are. */
  lemma {:induction false} EvaluationIsIdempotent(threshold: nat, plan: Option<CurrentPlan>, at: Instant, b: Book)
    requires Sound(b)
    ensures Evaluated(threshold, plan, at, Evaluated(threshold, plan, at, b)) == Evaluated(threshold, plan, at, b)
  {
    var now, mid, after := Clamp(b.alerts, at), Considered(threshold, plan, at, b), Evaluated(threshold, plan, at, b);
    EvaluationReconciles(threshold, plan, at, b);
    ClampBounds(b.alerts, at);
    if plan.Some? {
      ConsiderAllForward(threshold, plan.value, now, b, MemberIds(plan), |MemberIds(plan)|);
    }
    ResolveAllForward(threshold, plan, now, b, mid, |b.alerts|);
    ClampIsStable(b.alerts, after.alerts, at);
    SettledStaysPut(threshold, plan, at, after);
  }

  // ----- conservation -----

  function ActiveCount(alerts: seq<Alert>): nat {
    if alerts == [] then 0 else ActiveCount(alerts[..|alerts| - 1]) + if alerts[|alerts| - 1].status == AlertActive then 1 else 0
  }

  lemma {:induction false} ActiveCountUpdate(alerts: seq<Alert>, i: nat, row: Alert)
    requires i < |alerts|
    ensures ActiveCount(alerts[i := row]) ==
              ActiveCount(alerts) - (if alerts[i].status == AlertActive then 1 else 0) + if row.status == AlertActive then 1 else 0
  {
    var front, after := alerts[..|alerts| - 1], alerts[i := row];
    if i < |alerts| - 1 {
      ActiveCountUpdate(front, i, row);
      assert after[..|after| - 1] == front[i := row];
    } else {
      assert after[..|after| - 1] == front;
    }
  }

  /** What every write leaves unchanged: active alerts, less those created, plus those resolved
      since position `from` of the log. */
  function Balance(b: Book, from: nat): int {
    ActiveCount(b.alerts) - Count(b.log, from, Created) + Count(b.log, from, Resolved)
  }

  lemma {:induction false} LoggedCounts(b: Book, i: nat, kind: ChangeType, now: Instant, e: Evidence, from: nat, k: ChangeType)
    requires from <= |b.log|
    ensures Count(Logged(b, i, kind, now, e).log, from, k) == Count(b.log, from, k) + if k == kind then 1 else 0
  {
    var c := Change(b.cursor, i, kind, now, e);
    assert (b.log + [c])[..|b.log|] == b.log;
  }

  lemma {:induction false} RaiseBalances(b: Book, planId: Id, o: Id, e: Evidence, now: Instant, from: nat)
    requires from <= |b.log|
    ensures Balance(Raise(b, planId, o, e, now), from) == Balance(b, from)
  {
    var row := Alert(planId, o, AlertActive, e, now, now, None);
    assert (b.alerts + [row])[..|b.alerts|] == b.alerts;
    var raised := b.(alerts := b.alerts + [row]);
    LoggedCounts(raised, |b.alerts|, Created, now, e, from, Created);
    LoggedCounts(raised, |b.alerts|, Created, now, e, from, Resolved);
  }

  lemma {:induction false} RefreshBalances(b: Book, i: nat, e: Evidence, now: Instant, from: nat)
    requires from <= |b.log| && i < |b.alerts|
    ensures Balance(Refresh(b, i, e, now), from) == Balance(b, from)
  {
    var row := b.alerts[i].(evidence := e, lastEvaluatedAt := now);
    ActiveCountUpdate(b.alerts, i, row);
    LoggedCounts(Refreshed(b, i, e, now), i, Updated, now, e, from, Created);
    LoggedCounts(Refreshed(b, i, e, now), i, Updated, now, e, from, Resolved);
  }

  lemma {:induction false} ResolveBalances(plan: Option<CurrentPlan>, now: Instant, b: Book, i: nat, from: nat)
    requires from <= |b.log| && i < |b.alerts| && b.alerts[i].status == AlertActive
    ensures Balance(Resolve(plan, now, b, i), from) == Balance(b, from)
  {
    var row := Closed(plan, b.alerts[i], now);
    ActiveCountUpdate(b.alerts, i, row);
    LoggedCounts(b, i, Resolved, now, row.evidence, from, Created);
    LoggedCounts(b, i, Resolved, now, row.evidence, from, Resolved);
  }

  lemma {:induction false} ConsiderAllBalances(threshold: nat, plan: CurrentPlan, now: Instant, b: Book, ids: seq<Id>, n: nat)
    requires n <= |ids|
    ensures var after := ConsiderAll(threshold, plan, now, b, ids, n);
            |b.log| <= |after.log| && Balance(after, |b.log|) == Balance(b, |b.log|)
  {
    if 0 < n {
      ConsiderAllBalances(threshold, plan, now, b, ids, n - 1);
      ConsiderBalances(threshold, plan, now, b.alerts, ConsiderAll(threshold, plan, now, b, ids, n - 1), ids[n - 1], |b.log|);
    }
  }

  lemma {:induction false} ConsiderBalances(threshold: nat, plan: CurrentPlan, now: Instant, before: seq<Alert>, b: Book, o: Id, from: nat)
    requires |before| <= |b.alerts| && from <= |b.log|
    ensures var after := Consider(threshold, plan, now, before, b, o); from <= |after.log| && Balance(after, from) == Balance(b, from)
  {
    if o in b.orders && AtRiskBy(threshold, plan, b.orders, o, now).Some? {
      var e := AtRiskBy(threshold, plan, b.orders, o, now).value;
      var marked := WithRisk(b, o, AtRisk);
      var found := FindActive(before, plan.id, o);
      if found == None {
        RaiseBalances(marked, plan.id, o, e, now, from);
      } else {
        RefreshBalances(marked, found.value, e, now, from);
      }
    }
  }

  /** Rows not reached yet are as they were. */
  lemma {:induction false} ResolveAllAhead(threshold: nat, plan: Option<CurrentPlan>, now: Instant, before: Book, b: Book, n: nat, i: nat)
    requires n <= |before.alerts| <= |b.alerts| && n <= i < |b.alerts|
    ensures ResolveAll(threshold, plan, now, before, b, n).alerts[i] == b.alerts[i]
  {
    if 0 < n { ResolveAllAhead(threshold, plan, now, before, b, n - 1, i); }
  }

  lemma {:induction false} ResolveAllBalances(threshold: nat, plan: Option<CurrentPlan>, now: Instant, before: Book, b: Book, n: nat, from: nat)
    requires n <= |before.alerts| <= |b.alerts| && from <= |b.log|
    requires forall i :: 0 <= i < |before.alerts| ==> SameIdentity(before.alerts[i], b.alerts[i])
    ensures var after := ResolveAll(threshold, plan, now, before, b, n);
            from <= |after.log| && Balance(after, from) == Balance(b, from)
  {
    for k := 0 to n
      invariant from <= |ResolveAll(threshold, plan, now, before, b, k).log|
      invariant Balance(ResolveAll(threshold, plan, now, before, b, k), from) == Balance(b, from)
    {
      ResolveAllAhead(threshold, plan, now, before, b, k, k);
      assert SameIdentity(before.alerts[k], b.alerts[k]);
      if before.alerts[k].status == AlertActive && !Backed(threshold, plan, before.orders, before.alerts[k], now) {
        ResolveBalances(plan, now, ResolveAll(threshold, plan, now, before, b, k), k, from);
      }
    }
  }

  /** Active alerts after = active alerts before + created - resolved, with the counts that an
      evaluation returns. */
  lemma {:induction false} AlertsAreConserved(threshold: nat, plan: Option<CurrentPlan>, at: Instant, b: Book, created: nat, updated: nat, resolved: nat)
    requires Sound(b) && Counts(Evaluated(threshold, plan, at, b).log, |b.log|, created, updated, resolved)
    ensures ActiveCount(Evaluated(threshold, plan, at, b).alerts) == ActiveCount(b.alerts) + created - resolved
  {
    var now, mid := Clamp(b.alerts, at), Considered(threshold, plan, at, b);
    ConsideredIsPrepared(threshold, plan, at, b);
    if plan.Some? {
      ConsiderAllBalances(threshold, plan.value, now, b, MemberIds(plan), |MemberIds(plan)|);
    }
    ResolveAllBalances(threshold, plan, now, b, mid, |b.alerts|, |b.log|);
  }

  // ----- every run -----

  /** One evaluation, after the orders changed in any way and other writers took cursor values. */
  datatype Round = Round(plan: Option<CurrentPlan>, at: Instant, orders: map<Id, Order>, skipped: nat)

  ghost function After(threshold: nat, rounds: seq<Round>): Book {
    if rounds == [] then Book([], [], map[], 0)
    else
      var r := rounds[|rounds| - 1];
      var before := After(threshold, rounds[..|rounds| - 1]);
      Evaluated(threshold, r.plan, r.at, before.(orders := r.orders, cursor := before.cursor + r.skipped))
  }

  lemma {:induction false} SoundUnderOtherWriters(b: Book, orders: map<Id, Order>, skipped: nat)
    requires Sound(b)
    ensures Sound(b.(orders := orders, cursor := b.cursor + skipped))
  {
    var c := b.(orders := orders, cursor := b.cursor + skipped);
    forall k | 0 <= k < |c.log| ensures LogOk(c, k) {
      assert LogOk(b, k);
    }
  }

  /** Whatever plans, orders and clocks the evaluations see, in any order: the log of every
      alert reads CREATED, UPDATED*, then RESOLVED at most once, it replays to the stored row,
      at most one alert is active per plan and order, and change ids and recorded times only
      ever go up. */
  lemma {:induction false} EveryRunIsSound(threshold: nat, rounds: seq<Round>)
    ensures Sound(After(threshold, rounds))
  {
    if rounds != [] {
      var r := rounds[|rounds| - 1];
      EveryRunIsSound(threshold, rounds[..|rounds| - 1]);
      var before := After(threshold, rounds[..|rounds| - 1]);
      SoundUnderOtherWriters(before, r.orders, r.skipped);
      EvaluationReconciles(threshold, r.plan, r.at, before.(orders := r.orders, cursor := before.cursor + r.skipped));
    }
  }
}

/** What a late merchant's report does to the plan, told in the rows. */
module DelayMeaning {
  import opened Ordering
  import opened Domain
  import opened Risk
  import opened DelayPropagation

  // ----- planned times -----

  /** A pickup of an order that still waits for the merchant. */
  ghost predicate WaitsForMerchant(pickups: seq<Stop>, stop: Stop) {
    stop.kind == Pickup && exists p :: 0 <= p < |pickups| && pickups[p].orderId == stop.orderId
  }

  /** A stop comes as much later as the stop before it on its route leaves later, and leaves as planned
      unless service after the new arrival, or after the new ready time, ends later. */
  ghost predicate RowFollows(pickups: seq<Stop>, ready: Instant, was: seq<Stop>, rows: seq<Stop>, k: nat)
    requires k < |was| == |rows|
  {
    var (stop, row) := (was[k], rows[k]);
    var lag := if 0 < k && was[k - 1].routeId == stop.routeId then rows[k - 1].plannedDeparture - was[k - 1].plannedDeparture else 0;
    var waits := WaitsForMerchant(pickups, stop);
    && row == stop.(plannedArrival := row.plannedArrival, plannedDeparture := row.plannedDeparture)
    && row.plannedArrival == stop.plannedArrival + lag
    && stop.plannedDeparture <= row.plannedDeparture && row.plannedArrival + stop.service <= row.plannedDeparture
    && (waits ==> ready + stop.service <= row.plannedDeparture)
    && (|| row.plannedDeparture == stop.plannedDeparture || row.plannedDeparture == row.plannedArrival + stop.service
        || (waits && row.plannedDeparture == ready + stop.service))
  }

  // ----- risk -----

  /** Row i is the last delivery of the order among the stops. */
  ghost predicate LastDelivery(was: seq<Stop>, i: int, o: Id) {
    && 0 <= i < |was| && was[i].orderId == o && was[i].kind == Delivery
    && forall j :: i < j < |was| ==> !(was[j].orderId == o && was[j].kind == Delivery)
  }

  /** The new flag of an order: at risk when the new arrival is not earlier than the window end by more than the
      threshold. */
  ghost predicate FlagFollows(threshold: nat, was: seq<Stop>, rows: seq<Stop>, order: Order, after: Order, o: Id)
    requires |was| == |rows|
  {
    && after == order.(risk := after.risk)
    && (order.status == OrderCompleted || (forall i :: !LastDelivery(was, i, o)) ==> after == order)
    && forall i :: LastDelivery(was, i, o) && order.status != OrderCompleted ==>
         (after.risk == AtRisk <==>
          rows[i].plannedArrival + threshold >= if was[i].windowEnd.Some? then was[i].windowEnd.value else order.windowEnd)
  }

  /** What a delay that is waited for writes: rows[k] is the new row of the remaining stop was[k]. */
  ghost predicate WaitWrites(threshold: nat, pickups: seq<Stop>, ready: Instant, was: seq<Stop>, rows: seq<Stop>,
                             orders: map<Id, Order>, rated: map<Id, Order>) {
    && |rows| == |was|
    && (forall k :: 0 <= k < |was| ==> RowFollows(pickups, ready, was, rows, k))
    && rated.Keys == orders.Keys
    && forall o :: o in orders ==> FlagFollows(threshold, was, rows, orders[o], rated[o], o)
  }

  lemma {:induction false} RowIs(pickups: seq<Stop>, ready: Instant, was: seq<Stop>, rows: seq<Stop>, k: nat)
    requires k < |was| == |rows|
    requires var r := Report(set p | p in pickups :: p.orderId, ready); rows[k] == Moved(r, was, k) && (0 < k ==> rows[k - 1] == Moved(r, was, k - 1))
    ensures RowFollows(pickups, ready, was, rows, k)
  {
    var r := Report(set p | p in pickups :: p.orderId, ready);
    assert DirectPickup(r, was[k]) <==> WaitsForMerchant(pickups, was[k]);
  }

  lemma {:induction false} KeysStay(threshold: nat, r: Report, was: seq<Stop>, orders: map<Id, Order>, n: nat)
    requires n <= |was|
    ensures RatedUpTo(threshold, r, was, orders, n).Keys == orders.Keys
  {
    if 0 < n { KeysStay(threshold, r, was, orders, n - 1); }
  }

  lemma {:induction false} HasLast(was: seq<Stop>, n: nat, i: nat, o: Id) returns (last: nat)
    requires i < n <= |was| && DelayPropagation.DeliversAt(was, i, o)
    requires forall j :: n <= j < |was| ==> !(was[j].orderId == o && was[j].kind == Delivery)
    ensures LastDelivery(was, last, o)
  {
    if was[n - 1].orderId == o && was[n - 1].kind == Delivery { last := n - 1; } else { last := HasLast(was, n - 1, i, o); }
  }

  lemma {:induction false} FlagIs(threshold: nat, r: Report, was: seq<Stop>, rows: seq<Stop>, orders: map<Id, Order>, o: Id)
    requires |rows| == |was| && (forall k {:trigger rows[k]} :: 0 <= k < |rows| ==> rows[k] == Moved(r, was, k)) && o in orders
    ensures var rated := RatedUpTo(threshold, r, was, orders, |was|);
            o in rated && FlagFollows(threshold, was, rows, orders[o], rated[o], o)
  {
    OtherOrdersKeepTheirRow(threshold, r, was, orders, |was|, o);
    if i: nat :| i < |was| && DelayPropagation.DeliversAt(was, i, o) { var last := HasLast(was, |was|, i, o); }
    forall i | LastDelivery(was, i, o) && orders[o].status != OrderCompleted
      ensures RatedUpTo(threshold, r, was, orders, |was|)[o].risk == AtRisk <==>
              rows[i].plannedArrival + threshold >= if was[i].windowEnd.Some? then was[i].windowEnd.value else orders[o].windowEnd
    {
      RiskFollowsTheNewArrival(threshold, r, was, orders, |was|, i);
      assert rows[i] == Moved(r, was, i);
    }
  }

  /** What `AssessDelay` leaves when the plan waits for the merchant. */
  lemma {:induction false} WaitTells(threshold: nat, pickups: seq<Stop>, ready: Instant, was: seq<Stop>, rows: seq<Stop>,
                                     orders: map<Id, Order>, rated: map<Id, Order>)
    requires |rows| == |was|
    requires var r := Report(set p | p in pickups :: p.orderId, ready);
             && (forall k {:trigger rows[k]} :: 0 <= k < |rows| ==> rows[k] == Moved(r, was, k))
             && rated == RatedUpTo(threshold, r, was, orders, |was|)
    ensures WaitWrites(threshold, pickups, ready, was, rows, orders, rated)
  {
    var r := Report(set p | p in pickups :: p.orderId, ready);
    forall k | 0 <= k < |was| ensures RowFollows(pickups, ready, was, rows, k) {
      assert rows[k] == Moved(r, was, k);
      RowIs(pickups, ready, was, rows, k);
    }
    KeysStay(threshold, r, was, orders, |was|);
    forall o | o in orders ensures FlagFollows(threshold, was, rows, orders[o], rated[o], o) {
      FlagIs(threshold, r, was, rows, orders, o);
    }
  }

  // ----- replanning -----

  /** The member order is delayed by pickup p: it waits for the merchant itself, or for the vehicle. */
  ghost predicate DelayedBy(p: Stop, routeStops: seq<Stop>, m: PlanOrder) {
    && p.routeId == m.routeId
    && (p.orderId == m.orderId
        || exists k :: 0 <= k < |routeStops| && routeStops[k].routeId == m.routeId && routeStops[k].orderId == m.orderId
                       && p.sequenceNo < routeStops[k].sequenceNo)
  }

  /** An order of the plan that is not picked up yet and is delayed. */
  ghost predicate DelaysAnOrder(pickups: seq<Stop>, routeStops: seq<Stop>, members: seq<PlanOrder>, orders: map<Id, Order>) {
    exists i, j :: 0 <= i < |members| && 0 <= j < |pickups| && DelayedBy(pickups[j], routeStops, members[i])
      && members[i].orderId in orders && orders[members[i].orderId].status in {OrderPlanned, PickupInProgress}
  }

  lemma {:induction false} ImpactedAre(orders: map<Id, Order>)
    ensures forall o :: Impacted(orders, o) <==> o in orders && orders[o].status in {OrderPlanned, PickupInProgress}
  {
    forall o ensures Impacted(orders, o) <==> o in orders && orders[o].status in {OrderPlanned, PickupInProgress} {
      if o in orders { assert orders[o].status.OrderPlanned? || orders[o].status != OrderPlanned; }
    }
  }

  lemma {:induction false} InContextIff(pickups: seq<Stop>, routeStops: seq<Stop>, m: PlanOrder)
    ensures InContext(pickups, routeStops, m) <==> exists j :: 0 <= j < |pickups| && DelayedBy(pickups[j], routeStops, m)
  {
    if p :| p in pickups && p.routeId == m.routeId && p.orderId == m.orderId {
      var j :| 0 <= j < |pickups| && pickups[j] == p;
      assert DelayedBy(pickups[j], routeStops, m);
    }
    if stop :| stop in routeStops && stop.routeId == m.routeId && stop.orderId == m.orderId && Behind(pickups, stop) {
      var p :| p in pickups && p.routeId == stop.routeId && p.sequenceNo < stop.sequenceNo;
      var j :| 0 <= j < |pickups| && pickups[j] == p;
      var k :| 0 <= k < |routeStops| && routeStops[k] == stop;
      assert DelayedBy(pickups[j], routeStops, m);
    }
    if j :| 0 <= j < |pickups| && DelayedBy(pickups[j], routeStops, m) {
      assert pickups[j] in pickups;
      if pickups[j].orderId != m.orderId {
        var k :| 0 <= k < |routeStops| && routeStops[k].routeId == m.routeId && routeStops[k].orderId == m.orderId
                 && pickups[j].sequenceNo < routeStops[k].sequenceNo;
        assert routeStops[k] in routeStops && Behind(pickups, routeStops[k]);
      }
    }
  }

  /** The other half of the condition on which a report is replanned. */
  lemma {:induction false} ImpactedIff(pickups: seq<Stop>, routeStops: seq<Stop>, members: seq<PlanOrder>, orders: map<Id, Order>)
    ensures SomeImpacted(pickups, routeStops, members, orders) <==> DelaysAnOrder(pickups, routeStops, members, orders)
  {
    ImpactedAre(orders);
    forall m ensures InContext(pickups, routeStops, m) <==> exists j :: 0 <= j < |pickups| && DelayedBy(pickups[j], routeStops, m) {
      InContextIff(pickups, routeStops, m);
    }
    if SomeImpacted(pickups, routeStops, members, orders) {
      var m :| m in members && InContext(pickups, routeStops, m) && Impacted(orders, m.orderId);
      var i :| 0 <= i < |members| && members[i] == m;
      var j :| 0 <= j < |pickups| && DelayedBy(pickups[j], routeStops, m);
      assert DelayedBy(pickups[j], routeStops, members[i]);
    }
    if DelaysAnOrder(pickups, routeStops, members, orders) {
      var i, j :| 0 <= i < |members| && 0 <= j < |pickups| && DelayedBy(pickups[j], routeStops, members[i])
        && members[i].orderId in orders && orders[members[i].orderId].status in {OrderPlanned, PickupInProgress};
      var m := members[i];
      assert m in members && InContext(pickups, routeStops, m) && Impacted(orders, m.orderId);
    }
  }
}

/** Merchant delay: which stops of the current plan a late merchant touches, and the new
    planned times when no replanning is needed. */
module DelayPropagation {
  import opened Ordering
  import opened Domain
  import opened Risk

  // ----- the remaining stops of the affected routes -----

  /** ORDER BY vehicle_route_id, sequence_no. */
  ghost predicate Sorted(stops: seq<Stop>) {
    forall i, j :: 0 <= i < j < |stops| ==>
      stops[i].routeId < stops[j].routeId
      || (stops[i].routeId == stops[j].routeId && stops[i].sequenceNo < stops[j].sequenceNo)
  }

  /** At or behind some unfinished pickup of the merchant on its route, and unfinished itself. */
  ghost predicate Remaining(pickups: seq<Stop>, stop: Stop) {
    && stop.status != Completed
    && exists p :: p in pickups && p.routeId == stop.routeId && p.sequenceNo <= stop.sequenceNo
  }

  ghost predicate IsCutoff(pickups: seq<Stop>, route: Id, cutoff: int) {
    && (exists p :: p in pickups && p.routeId == route && p.sequenceNo == cutoff)
    && (forall p :: p in pickups && p.routeId == route ==> cutoff <= p.sequenceNo)
  }

  /** `cutoff_by_route`: the first pickup of the merchant on each route. */
  method CutoffByRoute(pickups: seq<Stop>) returns (cutoff: map<Id, int>)
    ensures forall route :: route in cutoff <==> exists p :: p in pickups && p.routeId == route
    ensures forall route :: route in cutoff ==> IsCutoff(pickups, route, cutoff[route])
  {
    cutoff := map[];
    for i := 0 to |pickups|
      invariant forall route :: route in cutoff <==> exists p :: p in pickups[..i] && p.routeId == route
      invariant forall route :: route in cutoff ==> IsCutoff(pickups[..i], route, cutoff[route])
    {
      var p := pickups[i];
      assert pickups[..i + 1] == pickups[..i] + [p];
      ghost var before := cutoff;
      var least := if p.routeId in cutoff then Min(cutoff[p.routeId], p.sequenceNo) else p.sequenceNo;
      cutoff := cutoff[p.routeId := least];
      assert forall q :: q in pickups[..i] ==> q in pickups[..i + 1];
      assert p in pickups[..i + 1];
    }
    assert pickups[..|pickups|] == pickups;
  }

  /** `resolve_merchant_incident_context`: the remaining stops, in route and sequence order. */
  method RemainingStops(pickups: seq<Stop>, routeStops: seq<Stop>) returns (remaining: seq<Stop>)
    requires Sorted(routeStops)
    ensures Sorted(remaining)
    ensures forall stop :: stop in remaining <==> stop in routeStops && Remaining(pickups, stop)
  {
    var cutoff := CutoffByRoute(pickups);
    remaining := [];
    for i := 0 to |routeStops|
      invariant Sorted(remaining)
      invariant forall stop :: stop in remaining ==> stop in routeStops[..i]
      invariant forall stop :: stop in remaining <==> stop in routeStops[..i] && Remaining(pickups, stop)
    {
      var stop := routeStops[i];
      assert routeStops[..i + 1] == routeStops[..i] + [stop];
      var keep := stop.status != Completed && stop.routeId in cutoff && stop.sequenceNo >= cutoff[stop.routeId];
      assert keep <==> Remaining(pickups, stop);
      if keep {
        assert forall j :: 0 <= j < |remaining| ==> remaining[j] in routeStops[..i];
        remaining := remaining + [stop];
      }
    }
    assert routeStops[..|routeStops|] == routeStops;
  }

  // ----- the new planned times -----

  /** The merchant's orders and their new ready time. */
  datatype Report = Report(direct: set<Id>, ready: Instant)

  predicate DirectPickup(r: Report, stop: Stop) {
    stop.kind == Pickup && stop.orderId in r.direct
  }

  /** The planned departure of a stop whose arrival moved by `shift`. */
  function Departure(r: Report, stop: Stop, shift: int): Instant {
    var served := Max(stop.plannedDeparture, stop.plannedArrival + shift + stop.service);
    if DirectPickup(r, stop) then Max(served, r.ready + stop.service) else served
  }

  function MoveBy(r: Report, stop: Stop, shift: int): Stop {
    stop.(plannedArrival := stop.plannedArrival + shift, plannedDeparture := Departure(r, stop, shift))
  }

  /** How far the arrival at stop i moves: as far as the departure before it on its route. */
  function Shift(r: Report, stops: seq<Stop>, i: nat): int
    requires i < |stops|
  {
    if i == 0 || stops[i - 1].routeId != stops[i].routeId then 0
    else Departure(r, stops[i - 1], Shift(r, stops, i - 1)) - stops[i - 1].plannedDeparture
  }

  function Moved(r: Report, stops: seq<Stop>, i: nat): Stop
    requires i < |stops|
  {
    MoveBy(r, stops[i], Shift(r, stops, i))
  }

  /** How far the departure of stop i moves. */
  function DepartureShift(r: Report, stops: seq<Stop>, i: nat): int
    requires i < |stops|
  {
    Moved(r, stops, i).plannedDeparture - stops[i].plannedDeparture
  }

  ghost predicate Visited(stops: seq<Stop>, n: nat, route: Id)
    requires n <= |stops|
  {
    exists k :: 0 <= k < n && stops[k].routeId == route
  }

  /** After the first n stops the dictionary knows the departure shift of the current route
      and of no route still to come. */
  ghost predicate Carries(r: Report, stops: seq<Stop>, n: nat, routeDelay: map<Id, int>)
    requires n <= |stops|
  {
    && (forall route :: route in routeDelay ==> Visited(stops, n, route))
    && (n > 0 ==> stops[n - 1].routeId in routeDelay && routeDelay[stops[n - 1].routeId] == DepartureShift(r, stops, n - 1))
  }

  lemma {:induction false} CarriesTheShift(r: Report, stops: seq<Stop>, n: nat, routeDelay: map<Id, int>)
    requires Sorted(stops) && n < |stops| && Carries(r, stops, n, routeDelay)
    ensures Shift(r, stops, n) == if stops[n].routeId in routeDelay then routeDelay[stops[n].routeId] else 0
  {
    if stops[n].routeId in routeDelay {
      assert Visited(stops, n, stops[n].routeId);
      var k :| 0 <= k < n && stops[k].routeId == stops[n].routeId;
      assert k <= n - 1;
    }
  }

  lemma {:induction false} CarriesOn(r: Report, stops: seq<Stop>, n: nat, routeDelay: map<Id, int>, after: map<Id, int>)
    requires n < |stops| && Carries(r, stops, n, routeDelay)
    requires after == routeDelay[stops[n].routeId := DepartureShift(r, stops, n)]
    ensures Carries(r, stops, n + 1, after)
  {
    forall route | route in after ensures Visited(stops, n + 1, route) {
      if route in routeDelay { assert Visited(stops, n, route); }
    }
  }

  function WindowEnd(stop: Stop, order: Order): Instant {
    Or(stop.windowEnd, order.windowEnd)
  }

  /** The risk flag is rewritten at the unfinished order's delivery. */
  predicate Rates(stop: Stop, orders: map<Id, Order>) {
    stop.kind == Delivery && stop.orderId in orders && orders[stop.orderId].status != OrderCompleted
  }

  function Rated(threshold: nat, stop: Stop, orders: map<Id, Order>): map<Id, Order> {
    if Rates(stop, orders) then
      var order := orders[stop.orderId];
      orders[stop.orderId := order.(risk := StatusForEta(threshold, stop.plannedArrival, WindowEnd(stop, order)))]
    else orders
  }

  /** The order rows after the first n stops have been given their new times. */
  function RatedUpTo(threshold: nat, r: Report, stops: seq<Stop>, orders: map<Id, Order>, n: nat): map<Id, Order>
    requires n <= |stops|
  {
    if n == 0 then orders
    else Rated(threshold, Moved(r, stops, n - 1), RatedUpTo(threshold, r, stops, orders, n - 1))
  }

  /** The time updates of one iteration. */
  method Postpone(r: Report, stop: Stop, delay: int) returns (moved: Stop)
    ensures moved == MoveBy(r, stop, delay)
  {
    moved := stop.(plannedArrival := stop.plannedArrival + delay);
    moved := moved.(plannedDeparture := Max(stop.plannedDeparture, moved.plannedArrival + stop.service));
    if stop.kind == Pickup && stop.orderId in r.direct {
      moved := moved.(plannedDeparture := Max(moved.plannedDeparture, r.ready + stop.service));
    }
  }

  /** The dictionary part of one iteration. */
  method Advance(r: Report, ghost was: seq<Stop>, ghost i: nat, stop: Stop, routeDelay: map<Id, int>)
    returns (moved: Stop, after: map<Id, int>)
    requires Sorted(was) && i < |was| && stop == was[i] && Carries(r, was, i, routeDelay)
    ensures moved == Moved(r, was, i) && Carries(r, was, i + 1, after)
  {
    CarriesTheShift(r, was, i, routeDelay);
    var delay := if stop.routeId in routeDelay then routeDelay[stop.routeId] else 0;
    moved := Postpone(r, stop, delay);
    after := routeDelay[stop.routeId := moved.plannedDeparture - stop.plannedDeparture];
    CarriesOn(r, was, i, routeDelay, after);
  }

  /** The risk update of one iteration. */
  method Rate(threshold: nat, stop: Stop, orders: map<Id, Order>) returns (rated: map<Id, Order>)
    ensures rated == Rated(threshold, stop, orders)
  {
    rated := orders;
    if stop.kind == Delivery && stop.orderId in orders && orders[stop.orderId].status != OrderCompleted {
      var order := orders[stop.orderId];
      rated := orders[stop.orderId :=
        order.(risk := StatusForEta(threshold, stop.plannedArrival, WindowEnd(stop, order)))];
    }
  }

  /** The first n rows have their new times, the others their old ones. */
  ghost predicate MovedUpTo(r: Report, was: seq<Stop>, rows: seq<Stop>, n: nat) {
    && n <= |rows| == |was|
    && (forall k {:trigger rows[k]} :: 0 <= k < n ==> rows[k] == Moved(r, was, k))
    && (forall k {:trigger rows[k]} :: n <= k < |rows| ==> rows[k] == was[k])
  }

  lemma {:induction false} MovedOneMore(r: Report, was: seq<Stop>, rows: seq<Stop>, n: nat)
    requires MovedUpTo(r, was, rows, n) && n < |rows|
    ensures MovedUpTo(r, was, rows[n := Moved(r, was, n)], n + 1)
  {
  }

  /** What n iterations have done. */
  ghost predicate UpdatedUpTo(threshold: nat, r: Report, was: seq<Stop>, rows: seq<Stop>, routeDelay: map<Id, int>,
                              orders: map<Id, Order>, rated: map<Id, Order>, n: nat)
  {
    MovedUpTo(r, was, rows, n) && Carries(r, was, n, routeDelay) && rated == RatedUpTo(threshold, r, was, orders, n)
  }

  lemma {:induction false} RatedOneMore(threshold: nat, r: Report, was: seq<Stop>, orders: map<Id, Order>, n: nat)
    requires n < |was|
    ensures RatedUpTo(threshold, r, was, orders, n + 1) == Rated(threshold, Moved(r, was, n), RatedUpTo(threshold, r, was, orders, n))
  {
  }

  /** One iteration: the row is rewritten in place and its order is rated. */
  method UpdateOne(stops: array<Stop>, i: nat, ghost was: seq<Stop>, r: Report, ghost orders: map<Id, Order>, threshold: nat,
                   routeDelay: map<Id, int>, rated: map<Id, Order>)
    returns (after: map<Id, int>, nowRated: map<Id, Order>)
    requires Sorted(was) && UpdatedUpTo(threshold, r, was, stops[..], routeDelay, orders, rated, i) && i < stops.Length
    modifies stops
    ensures UpdatedUpTo(threshold, r, was, stops[..], after, orders, nowRated, i + 1)
  {
    assert stops[..][i] == was[i];
    MovedOneMore(r, was, stops[..], i);
    RatedOneMore(threshold, r, was, orders, i);
    ghost var rows := stops[..];
    var stop;
    stop, after := Advance(r, was, i, stops[i], routeDelay);
    stops[i] := stop;
    assert stops[..] == rows[i := stop];
    nowRated := Rate(threshold, stop, rated);
  }

  /** `_update_remaining_eta_and_risk`: the loop over the sorted stops `was` with its dictionary
      `route_delay_seconds`, rewriting times in place and order risk alongside. */
  method UpdateRemaining(stops: array<Stop>, ghost was: seq<Stop>, r: Report, orders: map<Id, Order>, threshold: nat)
    returns (rated: map<Id, Order>)
    requires Sorted(was) && stops[..] == was
    modifies stops
    ensures MovedUpTo(r, was, stops[..], |was|)
    ensures rated == RatedUpTo(threshold, r, was, orders, |was|)
  {
    var routeDelay: map<Id, int> := map[];
    rated := orders;
    var i := 0;
    while i < stops.Length
      invariant 0 <= i <= stops.Length && UpdatedUpTo(threshold, r, was, stops[..], routeDelay, orders, rated, i)
    {
      routeDelay, rated := UpdateOne(stops, i, was, r, orders, threshold, routeDelay, rated);
      i := i + 1;
    }
  }

  ghost predicate DeliversAt(stops: seq<Stop>, i: nat, o: Id)
    requires i < |stops|
  {
    stops[i].orderId == o && stops[i].kind == Delivery
  }

  /** Only the risk flag of an order is ever rewritten, and only for an unfinished order with
      a delivery among the stops. */
  lemma {:induction false} OtherOrdersKeepTheirRow(threshold: nat, r: Report, stops: seq<Stop>, orders: map<Id, Order>, n: nat, o: Id)
    requires n <= |stops| && o in orders
    ensures o in RatedUpTo(threshold, r, stops, orders, n)
    ensures var after := RatedUpTo(threshold, r, stops, orders, n)[o];
            && after == orders[o].(risk := after.risk)
            && ((orders[o].status == OrderCompleted || forall i :: 0 <= i < n ==> !DeliversAt(stops, i, o)) ==>
                 after == orders[o])
  {
    if n > 0 {
      OtherOrdersKeepTheirRow(threshold, r, stops, orders, n - 1, o);
      var before := RatedUpTo(threshold, r, stops, orders, n - 1);
      var stop := Moved(r, stops, n - 1);
      assert DeliversAt(stops, n - 1, o) <==> stop.orderId == o && stop.kind == Delivery;
      if stop.orderId != o || !Rates(stop, before) {
        assert Rated(threshold, stop, before)[o] == before[o];
      }
    }
  }

  /** The flag an unfinished order ends up with is the one for its last rewritten delivery. */
  lemma {:induction false} RiskFollowsTheNewArrival(threshold: nat, r: Report, stops: seq<Stop>, orders: map<Id, Order>, n: nat, i: nat)
    requires i < n <= |stops|
    requires DeliversAt(stops, i, stops[i].orderId)
    requires forall j :: i < j < n ==> !DeliversAt(stops, j, stops[i].orderId)
    requires stops[i].orderId in orders && orders[stops[i].orderId].status != OrderCompleted
    ensures var o := stops[i].orderId; var after := RatedUpTo(threshold, r, stops, orders, n);
            && o in after
            && after[o].risk == StatusForEta(threshold, Moved(r, stops, i).plannedArrival, WindowEnd(stops[i], orders[o]))
  {
    var o := stops[i].orderId;
    OtherOrdersKeepTheirRow(threshold, r, stops, orders, n - 1, o);
    var before := RatedUpTo(threshold, r, stops, orders, n - 1);
    var stop := Moved(r, stops, n - 1);
    if i < n - 1 {
      RiskFollowsTheNewArrival(threshold, r, stops, orders, n - 1, i);
      assert !DeliversAt(stops, n - 1, o);
      assert Rated(threshold, stop, before)[o] == before[o];
    }
  }

  // ----- the new times are the least schedule -----

  /** Planned times proposed for the stops, by position. */
  datatype Times = Times(arrival: seq<Instant>, departure: seq<Instant>)

  ghost predicate SameRoute(stops: seq<Stop>, i: nat)
    requires i < |stops|
  {
    0 < i && stops[i - 1].routeId == stops[i].routeId
  }

  /** What a schedule for the report must respect at stop i: nothing moves earlier, the gap
      to the previous stop of the route is kept, service fits after the arrival, and a
      direct pickup is served in full after the new ready time. */
  ghost predicate Respects(r: Report, stops: seq<Stop>, t: Times, i: nat)
    requires i < |stops| == |t.arrival| == |t.departure|
  {
    && stops[i].plannedArrival <= t.arrival[i]
    && stops[i].plannedDeparture <= t.departure[i]
    && (SameRoute(stops, i) ==>
         stops[i].plannedArrival - stops[i - 1].plannedDeparture <= t.arrival[i] - t.departure[i - 1])
    && t.arrival[i] + stops[i].service <= t.departure[i]
    && (DirectPickup(r, stops[i]) ==> r.ready + stops[i].service <= t.departure[i])
  }

  ghost predicate IsSchedule(r: Report, stops: seq<Stop>, t: Times) {
    && |stops| == |t.arrival| == |t.departure|
    && forall i :: 0 <= i < |stops| ==> Respects(r, stops, t, i)
  }

  ghost predicate NoLater(a: Times, b: Times) {
    && |a.arrival| == |b.arrival| && |a.departure| == |b.departure|
    && (forall i :: 0 <= i < |a.arrival| ==> a.arrival[i] <= b.arrival[i])
    && (forall i :: 0 <= i < |a.departure| ==> a.departure[i] <= b.departure[i])
  }

  ghost function NewTimes(r: Report, stops: seq<Stop>): (t: Times)
    ensures |t.arrival| == |t.departure| == |stops|
    ensures forall i :: 0 <= i < |stops| ==>
              t.arrival[i] == Moved(r, stops, i).plannedArrival && t.departure[i] == Moved(r, stops, i).plannedDeparture
  {
    Times(seq(|stops|, i requires 0 <= i < |stops| => Moved(r, stops, i).plannedArrival),
          seq(|stops|, i requires 0 <= i < |stops| => Moved(r, stops, i).plannedDeparture))
  }

  lemma {:induction false} ShiftNonNegative(r: Report, stops: seq<Stop>, i: nat)
    requires i < |stops|
    ensures 0 <= Shift(r, stops, i)
  {
    if SameRoute(stops, i) { ShiftNonNegative(r, stops, i - 1); }
  }

  lemma {:induction false} NoLaterAt(r: Report, stops: seq<Stop>, other: Times, i: nat)
    requires IsSchedule(r, stops, other) && i < |stops|
    ensures Moved(r, stops, i).plannedArrival <= other.arrival[i]
    ensures Moved(r, stops, i).plannedDeparture <= other.departure[i]
  {
    assert Respects(r, stops, other, i);
    if SameRoute(stops, i) {
      NoLaterAt(r, stops, other, i - 1);
    }
  }

  /** The times written are a schedule, they are no later than any other schedule at any
      stop, and they are the only schedule with that property. */
  lemma {:induction false} LeastSchedule(r: Report, stops: seq<Stop>)
    ensures IsSchedule(r, stops, NewTimes(r, stops))
    ensures forall other :: IsSchedule(r, stops, other) ==> NoLater(NewTimes(r, stops), other)
    ensures forall t :: IsSchedule(r, stops, t) && (forall other :: IsSchedule(r, stops, other) ==> NoLater(t, other)) ==>
              t == NewTimes(r, stops)
  {
    var least := NewTimes(r, stops);
    forall i | 0 <= i < |stops| ensures Respects(r, stops, least, i) {
      ShiftNonNegative(r, stops, i);
    }
    forall other | IsSchedule(r, stops, other) ensures NoLater(least, other) {
      forall i | 0 <= i < |stops|
        ensures least.arrival[i] <= other.arrival[i] && least.departure[i] <= other.departure[i]
      {
        NoLaterAt(r, stops, other, i);
      }
    }
    forall t | IsSchedule(r, stops, t) && forall other :: IsSchedule(r, stops, other) ==> NoLater(t, other)
      ensures t == least
    {
      assert NoLater(t, least) && NoLater(least, t);
    }
  }

  // ----- the new times move by at most the reported delay -----

  /** What the plan a report is applied to keeps: full service before departure, and a
      direct pickup is not planned before the original ready time. */
  ghost predicate ServedInFull(r: Report, stop: Stop, originalReady: Instant) {
    && stop.plannedArrival + stop.service <= stop.plannedDeparture
    && (DirectPickup(r, stop) ==> originalReady <= stop.plannedArrival)
  }

  lemma {:induction false} ShiftBounded(r: Report, stops: seq<Stop>, originalReady: Instant, i: nat)
    requires originalReady <= r.ready && i < |stops|
    requires forall k :: 0 <= k < |stops| ==> ServedInFull(r, stops[k], originalReady)
    ensures 0 <= Shift(r, stops, i) <= r.ready - originalReady
    ensures 0 <= DepartureShift(r, stops, i) <= r.ready - originalReady
  {
    if SameRoute(stops, i) {
      ShiftBounded(r, stops, originalReady, i - 1);
    }
    assert ServedInFull(r, stops[i], originalReady);
  }

  ghost predicate MovesWithin(before: Stop, after: Stop, delay: int) {
    && 0 <= after.plannedArrival - before.plannedArrival <= delay
    && 0 <= after.plannedDeparture - before.plannedDeparture <= delay
  }

  /** No stop moves earlier, none moves by more than the merchant's delay, and the plan is
      left fit for the next report. */
  lemma {:induction false} MovesAtMostTheDelay(r: Report, stops: seq<Stop>, originalReady: Instant)
    requires originalReady <= r.ready
    requires forall k :: 0 <= k < |stops| ==> ServedInFull(r, stops[k], originalReady)
    ensures forall i :: 0 <= i < |stops| ==>
              && MovesWithin(stops[i], Moved(r, stops, i), r.ready - originalReady)
              && ServedInFull(r, Moved(r, stops, i), originalReady)
  {
    forall i | 0 <= i < |stops|
      ensures MovesWithin(stops[i], Moved(r, stops, i), r.ready - originalReady)
      ensures ServedInFull(r, Moved(r, stops, i), originalReady)
    {
      ShiftBounded(r, stops, originalReady, i);
      assert ServedInFull(r, stops[i], originalReady);
    }
  }

  // ----- the whole assessment -----

  datatype Assessment =
    | MerchantNotInPlan
    | SnapshotMissing
    | NotPositive       // an explicit incident with a ready time that is not later
    | EarlierAccepted   // the merchant's ready time is updated, nothing else
    | AlreadyOpen
    | Replanning
    | Waiting           // the planned times are rewritten

  /** The earliest ready snapshot among the merchant's unfinished pickups. */
  ghost predicate IsOriginalReady(pickups: seq<Stop>, ready: Instant) {
    && (exists p :: p in pickups && p.windowStart == Some(ready))
    && (forall p :: p in pickups && p.windowStart.Some? ==> ready <= p.windowStart.value)
  }

  method OriginalReady(pickups: seq<Stop>) returns (ready: Instant)
    requires pickups != [] && forall p :: p in pickups ==> p.windowStart.Some?
    ensures IsOriginalReady(pickups, ready)
  {
    assert pickups[0] in pickups;
    ready := pickups[0].windowStart.value;
    for i := 1 to |pickups|
      invariant exists p :: p in pickups && p.windowStart == Some(ready)
      invariant forall p :: p in pickups[..i] ==> ready <= p.windowStart.value
    {
      assert pickups[i] in pickups;
      assert pickups[..i + 1] == pickups[..i] + [pickups[i]];
      ready := Min(ready, pickups[i].windowStart.value);
    }
    assert pickups[..|pickups|] == pickups;
  }

  /** A plan as planning leaves it: services fit, pickups are not before their snapshot, and
      the merchant's unfinished pickups are the ones its orders still have. */
  ghost predicate WellPlanned(pickups: seq<Stop>, remaining: seq<Stop>) {
    forall k :: 0 <= k < |remaining| ==>
      && remaining[k].plannedArrival + remaining[k].service <= remaining[k].plannedDeparture
      && (remaining[k].kind == Pickup && (exists p :: p in pickups && p.orderId == remaining[k].orderId) ==>
           remaining[k] in pickups && Or(remaining[k].windowStart, 0) <= remaining[k].plannedArrival)
  }

  /** A row of delivery_plan_orders with a route. */
  datatype PlanOrder = PlanOrder(orderId: Id, routeId: Id)

  /** The order of the merchant itself, or one with a stop behind a pickup of the merchant. */
  predicate InContext(pickups: seq<Stop>, routeStops: seq<Stop>, m: PlanOrder) {
    || (exists p :: p in pickups && p.routeId == m.routeId && p.orderId == m.orderId)
    || exists stop :: stop in routeStops && stop.routeId == m.routeId && stop.orderId == m.orderId && Behind(pickups, stop)
  }

  predicate Behind(pickups: seq<Stop>, stop: Stop) {
    exists p :: p in pickups && p.routeId == stop.routeId && p.sequenceNo < stop.sequenceNo
  }

  /** `assess_merchant_order` leaves out what is already picked up. */
  predicate Impacted(orders: map<Id, Order>, o: Id) {
    o in orders && orders[o].status !in {PickedUp, Delivering, OrderCompleted}
  }

  predicate SomeImpacted(pickups: seq<Stop>, routeStops: seq<Stop>, members: seq<PlanOrder>, orders: map<Id, Order>) {
    exists m :: m in members && InContext(pickups, routeStops, m) && Impacted(orders, m.orderId)
  }

  /** `_assess_delay`.  `open` says whether the plan already has an open incident for the
      merchant.  Planned times are rewritten only for a later ready time, without an open
      incident, and when the delay is at most ten minutes or no order is impacted. */
  method AssessDelay(pickups: seq<Stop>, routeStops: seq<Stop>, members: seq<PlanOrder>, updatedReady: Instant, explicitIncident: bool,
                     open: bool, orders: map<Id, Order>, threshold: nat)
    returns (outcome: Assessment, ghost remaining: seq<Stop>, moved: seq<Stop>, rated: map<Id, Order>)
    requires Sorted(routeStops)
    ensures outcome == MerchantNotInPlan <==> pickups == []
    ensures outcome == SnapshotMissing <==> pickups != [] && exists p :: p in pickups && p.windowStart == None
    ensures !outcome.MerchantNotInPlan? && !outcome.SnapshotMissing? ==>
              forall ready :: IsOriginalReady(pickups, ready) ==>
                && (updatedReady <= ready <==> outcome.NotPositive? || outcome.EarlierAccepted?)
                && (outcome.NotPositive? ==> explicitIncident)
                && (outcome.EarlierAccepted? ==> !explicitIncident)
                && (outcome.AlreadyOpen? <==> ready < updatedReady && open)
                && (outcome.Replanning? <==> !open && (updatedReady - ready > 600 && SomeImpacted(pickups, routeStops, members, orders)))
    ensures outcome != Waiting ==> moved == [] && rated == orders
    ensures outcome == Waiting ==>
              && Sorted(remaining)
              && (forall stop :: stop in remaining <==> stop in routeStops && Remaining(pickups, stop))
              && |moved| == |remaining|
              && var r := Report(set p | p in pickups :: p.orderId, updatedReady);
                 && (forall k {:trigger moved[k]} :: 0 <= k < |moved| ==> moved[k] == Moved(r, remaining, k))
                 && rated == RatedUpTo(threshold, r, remaining, orders, |remaining|)
    ensures outcome == Waiting && WellPlanned(pickups, remaining) ==>
              forall ready, k {:trigger IsOriginalReady(pickups, ready), moved[k]} ::
                IsOriginalReady(pickups, ready) && 0 <= k < |moved| ==>
                MovesWithin(remaining[k], moved[k], updatedReady - ready)
  {
    remaining, moved, rated := [], [], orders;
    if pickups == [] {
      outcome := MerchantNotInPlan;
      return;
    }
    if exists p :: p in pickups && p.windowStart == None {
      outcome := SnapshotMissing;
      return;
    }
    var ready := OriginalReady(pickups);
    if updatedReady - ready <= 0 {
      outcome := if explicitIncident then NotPositive else EarlierAccepted;
      return;
    }
    if open {
      outcome := AlreadyOpen;
      return;
    }
    if updatedReady - ready > 600 && SomeImpacted(pickups, routeStops, members, orders) {
      outcome := Replanning;
      return;
    }
    outcome := Waiting;
    var r := Report(set p | p in pickups :: p.orderId, updatedReady);
    moved, rated, remaining := WaitForMerchant(pickups, routeStops, r, orders, threshold);
    if WellPlanned(pickups, remaining) {
      forall k | 0 <= k < |remaining| ensures ServedInFull(r, remaining[k], ready) {
      }
      MovesAtMostTheDelay(r, remaining, ready);
    }
  }

  method WaitForMerchant(pickups: seq<Stop>, routeStops: seq<Stop>, r: Report, orders: map<Id, Order>, threshold: nat)
    returns (moved: seq<Stop>, rated: map<Id, Order>, ghost remaining: seq<Stop>)
    requires Sorted(routeStops)
    ensures Sorted(remaining)
    ensures forall stop :: stop in remaining <==> stop in routeStops && Remaining(pickups, stop)
    ensures |moved| == |remaining|
    ensures forall k {:trigger moved[k]} :: 0 <= k < |moved| ==> moved[k] == Moved(r, remaining, k)
    ensures rated == RatedUpTo(threshold, r, remaining, orders, |remaining|)
  {
    var stops := RemainingStops(pickups, routeStops);
    remaining := stops;
    var rows := new Stop[|stops|](i requires 0 <= i < |stops| => stops[i]);
    assert rows[..] == stops;
    rated := UpdateRemaining(rows, stops, r, orders, threshold);
    moved := rows[..];
  }
}

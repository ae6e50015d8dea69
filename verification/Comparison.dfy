/** compare_plan_snapshots: what changed between a base plan and a candidate, by business action
    and never by row id. */
module Comparison {
  import opened Ordering
  import opened Domain
  import opened Candidate

  datatype Snapshot = Snapshot(routes: seq<Route>, members: seq<Member>)

  // ----- actions -----

  /** What a stop does, whatever its row: only a handover is told apart by its incident. */
  datatype Key = Key(orderId: Id, kind: StopKind, incident: Option<Id>)

  datatype Action = Action(stop: Stop, vehicleId: Id)

  function KeyOf(stop: Stop): Key {
    Key(stop.orderId, stop.kind, if stop.kind == Handover then stop.incident else None)
  }

  function OnVehicle(stops: seq<Stop>, vehicleId: Id): seq<Action> {
    if stops == [] then [] else OnVehicle(stops[..|stops| - 1], vehicleId) + [Action(stops[|stops| - 1], vehicleId)]
  }

  /** The actions of a plan in route and sequence order. */
  function Actions(routes: seq<Route>): seq<Action> {
    if routes == [] then []
    else Actions(routes[..|routes| - 1]) + OnVehicle(routes[|routes| - 1].stops, routes[|routes| - 1].vehicleId)
  }

  function ByKey(actions: seq<Action>): map<Key, Action> {
    if actions == [] then map[]
    else ByKey(actions[..|actions| - 1])[KeyOf(actions[|actions| - 1].stop) := actions[|actions| - 1]]
  }

  /** No business action occurs twice. */
  ghost predicate DistinctKeys(actions: seq<Action>) {
    forall i, j :: 0 <= i < j < |actions| ==> KeyOf(actions[i].stop) != KeyOf(actions[j].stop)
  }

  function FindById(actions: seq<Action>, id: Id): Option<Stop> {
    if actions == [] then None
    else if actions[0].stop.id == id then Some(actions[0].stop)
    else FindById(actions[1..], id)
  }

  datatype Predecessor = Predecessor(key: Key, location: Id)

  /** `_predecessor`: the action that must come before, found by the stored row id. */
  function PredecessorOf(stop: Stop, actions: seq<Action>): Option<Predecessor> {
    if stop.precedence == None then None
    else
      var prior := FindById(actions, stop.precedence.value);
      if prior == None then None else Some(Predecessor(KeyOf(prior.value), prior.value.locationId))
  }

  datatype Signature =
    | Executed(vehicleId: Id, location: Id, arrival: Option<Instant>, departure: Option<Instant>, predecessor: Option<Predecessor>)
    | Open(vehicleId: Id, sequenceNo: int, location: Id, plannedArrival: Instant, plannedDeparture: Instant, status: StopStatus,
           arrival: Option<Instant>, departure: Option<Instant>, predecessor: Option<Predecessor>)

  /** `_stop_signature`: an executed stop may be renumbered without having changed. */
  function SignatureOf(a: Action, actions: seq<Action>): Signature {
    var s := a.stop;
    if s.status == Completed
    then Executed(a.vehicleId, s.locationId, s.actualArrival, s.actualDeparture, PredecessorOf(s, actions))
    else Open(a.vehicleId, s.sequenceNo, s.locationId, s.plannedArrival, s.plannedDeparture, s.status,
              s.actualArrival, s.actualDeparture, PredecessorOf(s, actions))
  }

  // ----- stops -----

  datatype ChangeType = Modified | Removed | Added

  /** One side of a reported change. */
  datatype Side = Side(signature: Signature, sequenceNo: int, plannedArrival: Instant, plannedDeparture: Instant)

  datatype StopChange = StopChange(change: ChangeType, before: Option<Side>, after: Option<Side>)

  function SideOf(a: Action, actions: seq<Action>): Side {
    Side(SignatureOf(a, actions), a.stop.sequenceNo, a.stop.plannedArrival, a.stop.plannedDeparture)
  }

  predicate Unchanged(base: seq<Action>, candidate: seq<Action>, key: Key) {
    var was, now := ByKey(base), ByKey(candidate);
    key in was && key in now && SignatureOf(was[key], base) == SignatureOf(now[key], candidate)
  }

  function ChangeAt(base: seq<Action>, candidate: seq<Action>, key: Key): StopChange {
    var was, now := ByKey(base), ByKey(candidate);
    StopChange(if key in was && key in now then Modified else if key in was then Removed else Added,
               if key in was then Some(SideOf(was[key], base)) else None,
               if key in now then Some(SideOf(now[key], candidate)) else None)
  }

  function Keys(base: seq<Action>, candidate: seq<Action>): set<Key> {
    ByKey(base).Keys + ByKey(candidate).Keys
  }

  function StopChanges(base: seq<Action>, candidate: seq<Action>): map<Key, StopChange> {
    map key | key in Keys(base, candidate) && !Unchanged(base, candidate, key) :: ChangeAt(base, candidate, key)
  }

  function TouchedOrders(changes: map<Key, StopChange>): set<Id> {
    set key | key in changes :: key.orderId
  }

  // ----- orders -----

  function MembersById(members: seq<Member>): map<Id, Member> {
    if members == [] then map[]
    else MembersById(members[..|members| - 1])[members[|members| - 1].orderId := members[|members| - 1]]
  }

  function RoutesById(routes: seq<Route>): map<Id, Route> {
    if routes == [] then map[]
    else RoutesById(routes[..|routes| - 1])[routes[|routes| - 1].id := routes[|routes| - 1]]
  }

  /** What one plan says about an order. */
  datatype OrderSide = OrderSide(onRoute: Option<bool>, vehicleId: Option<Id>, reason: Option<nat>, delivery: Option<Action>)

  function VehicleOfOrder(p: Snapshot, o: Id): Option<Id> {
    var members, routes := MembersById(p.members), RoutesById(p.routes);
    if o in members && members[o].routeId.Some? && members[o].routeId.value in routes
    then Some(routes[members[o].routeId.value].vehicleId) else None
  }

  function DeliveryOfOrder(p: Snapshot, o: Id): Option<Action> {
    var actions := ByKey(Actions(p.routes));
    if Key(o, Delivery, None) in actions then Some(actions[Key(o, Delivery, None)]) else None
  }

  function OrderSideOf(p: Snapshot, o: Id): OrderSide {
    var members := MembersById(p.members);
    OrderSide(if o in members then Some(members[o].routeId.Some?) else None,
              VehicleOfOrder(p, o),
              if o in members then members[o].reason else None,
              DeliveryOfOrder(p, o))
  }

  datatype EtaBasis = PlannedArrival | CompletedDelivery | NotAvailable | NoBasis

  datatype OrderView = OrderView(
    beforeVehicle: Option<Id>, afterVehicle: Option<Id>,
    assignmentChanged: bool, routeTaskChanged: bool,
    beforeEta: Option<Instant>, afterEta: Option<Instant>, delta: Option<int>, basis: EtaBasis, unavailable: EtaBasis)

  predicate Delivered(side: OrderSide) {
    side.delivery.Some? && side.delivery.value.stop.status == Completed
  }

  /** The planned delivery time, when the delivery is on the route the order is assigned to. */
  function EtaOf(side: OrderSide): Option<Instant> {
    if side.vehicleId.Some? && side.delivery.Some? && side.delivery.value.vehicleId == side.vehicleId.value
    then Some(side.delivery.value.stop.plannedArrival) else None
  }

  function OrderViewOf(before: OrderSide, after: OrderSide, touched: bool): OrderView {
    var changed := (before.onRoute, before.vehicleId, before.reason) != (after.onRoute, after.vehicleId, after.reason);
    if Delivered(before) || Delivered(after)
    then OrderView(before.vehicleId, after.vehicleId, changed, touched, None, None, None, NoBasis, CompletedDelivery)
    else
      var beforeEta, afterEta := EtaOf(before), EtaOf(after);
      var delta := if beforeEta.Some? && afterEta.Some? then Some(afterEta.value - beforeEta.value) else None;
      OrderView(before.vehicleId, after.vehicleId, changed, touched, beforeEta, afterEta, delta,
                if beforeEta.Some? || afterEta.Some? then PlannedArrival else NoBasis,
                if delta.Some? then NoBasis else NotAvailable)
  }

  function OrderIds(base: Snapshot, candidate: Snapshot): set<Id> {
    MembersById(base.members).Keys + MembersById(candidate.members).Keys
  }

  function OrderViews(base: Snapshot, candidate: Snapshot, touched: set<Id>): map<Id, OrderView> {
    map o | o in OrderIds(base, candidate) :: OrderViewOf(OrderSideOf(base, o), OrderSideOf(candidate, o), o in touched)
  }

  // ----- routes -----

  function RoutesByVehicleId(routes: seq<Route>): map<Id, Route> {
    if routes == [] then map[]
    else RoutesByVehicleId(routes[..|routes| - 1])[routes[|routes| - 1].vehicleId := routes[|routes| - 1]]
  }

  /** `_route_signature`; the stops of a route are kept in sequence order. */
  function RouteSignature(route: Route, actions: seq<Action>, n: nat): seq<(Key, Signature)>
    requires n <= |route.stops|
  {
    if n == 0 then []
    else
      RouteSignature(route, actions, n - 1)
      + [(KeyOf(route.stops[n - 1]), SignatureOf(Action(route.stops[n - 1], route.vehicleId), actions))]
  }

  datatype RouteSide = RouteSide(routeId: Id, stopCount: nat)
  datatype RouteChange = RouteChange(before: Option<RouteSide>, after: Option<RouteSide>)

  predicate SameRoute(base: Snapshot, candidate: Snapshot, v: Id) {
    var was, now := RoutesByVehicleId(base.routes), RoutesByVehicleId(candidate.routes);
    && v in was && v in now
    && RouteSignature(was[v], Actions(base.routes), |was[v].stops|)
       == RouteSignature(now[v], Actions(candidate.routes), |now[v].stops|)
  }

  function RouteSideOf(routes: seq<Route>, v: Id): Option<RouteSide> {
    var byVehicle := RoutesByVehicleId(routes);
    if v in byVehicle then Some(RouteSide(byVehicle[v].id, |byVehicle[v].stops|)) else None
  }

  function VehicleIds(base: Snapshot, candidate: Snapshot): set<Id> {
    RoutesByVehicleId(base.routes).Keys + RoutesByVehicleId(candidate.routes).Keys
  }

  function RouteChanges(base: Snapshot, candidate: Snapshot): map<Id, RouteChange> {
    map v | v in VehicleIds(base, candidate) && !SameRoute(base, candidate, v) ::
      RouteChange(RouteSideOf(base.routes, v), RouteSideOf(candidate.routes, v))
  }

  // ----- the comparison -----

  datatype Diff = Diff(
    stops: map<Key, StopChange>,
    orders: map<Id, OrderView>,
    routes: map<Id, RouteChange>,
    reassigned: set<Id>,
    affected: set<Id>,
    frozen: set<Id>,
    kept: nat,
    protectedStops: nat)

  predicate Reassigned(view: OrderView) {
    view.beforeVehicle.Some? && view.afterVehicle.Some? && view.beforeVehicle != view.afterVehicle
  }

  function ReassignedOrders(orders: map<Id, OrderView>): set<Id> {
    set o | o in orders && Reassigned(orders[o])
  }

  function VehiclesOf(view: OrderView): set<Id> {
    (if view.beforeVehicle.Some? then {view.beforeVehicle.value} else {})
    + if view.afterVehicle.Some? then {view.afterVehicle.value} else {}
  }

  function AffectedVehicles(orders: map<Id, OrderView>, routes: map<Id, RouteChange>): set<Id> {
    routes.Keys + set o, v | o in orders && orders[o].assignmentChanged && v in VehiclesOf(orders[o]) :: v
  }

  predicate IsFrozen(base: map<Key, Action>, candidate: map<Key, Action>, touched: set<Id>, key: Key)
    requires key in base
  {
    && key.kind == Delivery && base[key].stop.status == Completed && key.orderId !in touched
    && Key(key.orderId, Delivery, None) in candidate && candidate[Key(key.orderId, Delivery, None)].stop.status == Completed
  }

  function FrozenOrders(base: map<Key, Action>, candidate: map<Key, Action>, touched: set<Id>): set<Id> {
    set key | key in base && IsFrozen(base, candidate, touched, key) :: key.orderId
  }

  function UnchangedKeys(base: seq<Action>, candidate: seq<Action>): set<Key> {
    set key | key in ByKey(base) && Unchanged(base, candidate, key)
  }

  function ProtectedKeys(base: seq<Action>, candidate: seq<Action>): set<Key> {
    set key | key in ByKey(base) && Unchanged(base, candidate, key) && ByKey(base)[key].stop.status == Completed
  }

  function DiffOf(base: Snapshot, candidate: Snapshot): Diff {
    var was, now := Actions(base.routes), Actions(candidate.routes);
    var stops := StopChanges(was, now);
    var touched := TouchedOrders(stops);
    var orders := OrderViews(base, candidate, touched);
    var routes := RouteChanges(base, candidate);
    Diff(stops, orders, routes, ReassignedOrders(orders), AffectedVehicles(orders, routes),
         FrozenOrders(ByKey(was), ByKey(now), touched), |UnchangedKeys(was, now)|, |ProtectedKeys(was, now)|)
  }

  // ----- the procedure -----

  /** `_plan_actions`: a repeated action is an error. */
  method PlanActions(routes: seq<Route>) returns (ok: bool, listed: seq<Action>, actions: map<Key, Action>)
    ensures ok <==> DistinctKeys(Actions(routes))
    ensures ok ==> listed == Actions(routes) && actions == ByKey(listed)
  {
    listed, actions, ok := [], map[], true;
    for i := 0 to |routes|
      invariant ok && listed == Actions(routes[..i]) && actions == ByKey(listed) && DistinctKeys(listed)
    {
      assert routes[..i + 1][..i] == routes[..i];
      ok, listed, actions := RouteActions(routes[i], listed, actions);
      if !ok {
        PrefixDuplicates(routes, i + 1);
        return;
      }
    }
    assert routes[..|routes|] == routes;
  }

  method RouteActions(route: Route, before: seq<Action>, known: map<Key, Action>)
    returns (ok: bool, listed: seq<Action>, actions: map<Key, Action>)
    requires known == ByKey(before) && DistinctKeys(before)
    ensures ok <==> DistinctKeys(before + OnVehicle(route.stops, route.vehicleId))
    ensures ok ==> listed == before + OnVehicle(route.stops, route.vehicleId) && actions == ByKey(listed)
  {
    listed, actions, ok := before, known, true;
    for k := 0 to |route.stops|
      invariant ok && listed == before + OnVehicle(route.stops[..k], route.vehicleId)
      invariant actions == ByKey(listed) && DistinctKeys(listed)
    {
      var key := KeyOf(route.stops[k]);
      assert route.stops[..k + 1][..k] == route.stops[..k];
      ByKeyHas(listed, key);
      var action := Action(route.stops[k], route.vehicleId);
      var grown := listed + [action];
      assert grown == before + OnVehicle(route.stops[..k + 1], route.vehicleId);
      if key in actions {
        StillDuplicated(before, route, k, listed, key);
        return false, listed, actions;
      }
      assert grown[..|listed|] == listed;
      listed, actions := grown, actions[key := action];
    }
    assert route.stops[..|route.stops|] == route.stops;
  }

  lemma {:induction false} StillDuplicated(before: seq<Action>, route: Route, k: nat, listed: seq<Action>, key: Key)
    requires k < |route.stops| && listed == before + OnVehicle(route.stops[..k], route.vehicleId)
    requires KeyOf(route.stops[k]) == key && exists i :: 0 <= i < |listed| && KeyOf(listed[i].stop) == key
    ensures !DistinctKeys(before + OnVehicle(route.stops, route.vehicleId))
  {
    var i :| 0 <= i < |listed| && KeyOf(listed[i].stop) == key;
    var all := before + OnVehicle(route.stops, route.vehicleId);
    OnVehiclePrefix(route.stops, route.vehicleId, k);
    OnVehicleAt(route.stops, route.vehicleId, k);
    assert all[..|listed|] == listed;
    assert all[i] == listed[i] && all[|listed|] == Action(route.stops[k], route.vehicleId);
  }

  lemma {:induction false} OnVehicleAt(stops: seq<Stop>, v: Id, k: nat)
    requires k < |stops|
    ensures |OnVehicle(stops, v)| == |stops| && OnVehicle(stops, v)[k] == Action(stops[k], v)
  {
    OnVehiclePrefix(stops, v, |stops|);
    if k < |stops| - 1 { OnVehicleAt(stops[..|stops| - 1], v, k); }
    OnVehiclePrefix(stops, v, |stops| - 1);
  }

  lemma {:induction false} ByKeyHas(actions: seq<Action>, key: Key)
    ensures key in ByKey(actions) <==> exists i :: 0 <= i < |actions| && KeyOf(actions[i].stop) == key
    ensures key in ByKey(actions) ==> KeyOf(ByKey(actions)[key].stop) == key && ByKey(actions)[key] in actions
  {
    if actions != [] { ByKeyHas(actions[..|actions| - 1], key); }
  }

  lemma {:induction false} OnVehiclePrefix(stops: seq<Stop>, v: Id, n: nat)
    requires n <= |stops|
    ensures |OnVehicle(stops, v)| == |stops| && OnVehicle(stops[..n], v) == OnVehicle(stops, v)[..n]
  {
    if n < |stops| {
      OnVehiclePrefix(stops[..|stops| - 1], v, n);
      assert stops[..|stops| - 1][..n] == stops[..n];
    } else {
      assert stops[..n] == stops;
      if stops != [] { OnVehiclePrefix(stops[..|stops| - 1], v, |stops| - 1); }
    }
  }

  lemma {:induction false} PrefixDuplicates(routes: seq<Route>, n: nat)
    requires n <= |routes| && !DistinctKeys(Actions(routes[..n]))
    ensures !DistinctKeys(Actions(routes))
  {
    if n < |routes| {
      var front := routes[..|routes| - 1];
      assert front[..n] == routes[..n];
      PrefixDuplicates(front, n);
      var i, j :| 0 <= i < j < |Actions(front)| && KeyOf(Actions(front)[i].stop) == KeyOf(Actions(front)[j].stop);
      assert Actions(routes)[i] == Actions(front)[i] && Actions(routes)[j] == Actions(front)[j];
    } else {
      assert routes[..n] == routes;
    }
  }

  /** `compare_plan_snapshots`. */
  method ComparePlanSnapshots(base: Snapshot, candidate: Snapshot) returns (diff: Option<Diff>)
    ensures diff == if DistinctKeys(Actions(base.routes)) && DistinctKeys(Actions(candidate.routes))
                    then Some(DiffOf(base, candidate)) else None
  {
    var ok, was, oldActions := PlanActions(base.routes);
    if !ok {
      return None;
    }
    var now, newActions;
    ok, now, newActions := PlanActions(candidate.routes);
    if !ok {
      return None;
    }
    var stops := CompareStops(was, now, oldActions, newActions);
    var touched := TouchedOrders(stops);
    var orders := CompareOrders(base, candidate, touched);
    var routes := RouteChanges(base, candidate);
    var affected := AffectedBy(orders, routes);
    var kept, protectedStops := CountUnchanged(UnchangedKeys(was, now), oldActions);
    assert ExecutedOf(UnchangedKeys(was, now), oldActions) == ProtectedKeys(was, now);
    diff := Some(Diff(stops, orders, routes, ReassignedOrders(orders), affected,
                      FrozenOrders(oldActions, newActions, touched), kept, protectedStops));
  }

  /** The body of the loop over the keys. */
  method CompareStop(was: seq<Action>, now: seq<Action>, oldActions: map<Key, Action>, newActions: map<Key, Action>, key: Key)
    returns (change: Option<StopChange>)
    requires oldActions == ByKey(was) && newActions == ByKey(now) && key in Keys(was, now)
    ensures change == if Unchanged(was, now, key) then None else Some(ChangeAt(was, now, key))
  {
    var before := if key in oldActions then Some(oldActions[key]) else None;
    var after := if key in newActions then Some(newActions[key]) else None;
    if before.Some? && after.Some? && SignatureOf(before.value, was) == SignatureOf(after.value, now) {
      return None;
    }
    change := Some(StopChange(
      if before.Some? && after.Some? then Modified else if before.Some? then Removed else Added,
      if before.Some? then Some(SideOf(before.value, was)) else None,
      if after.Some? then Some(SideOf(after.value, now)) else None));
  }

  method CompareStops(was: seq<Action>, now: seq<Action>, oldActions: map<Key, Action>, newActions: map<Key, Action>)
    returns (changes: map<Key, StopChange>)
    requires oldActions == ByKey(was) && newActions == ByKey(now)
    ensures changes == StopChanges(was, now)
  {
    changes := map[];
    var todo := oldActions.Keys + newActions.Keys;
    while todo != {}
      invariant todo <= Keys(was, now)
      invariant changes == map key | key in Keys(was, now) - todo && !Unchanged(was, now, key) :: ChangeAt(was, now, key)
    {
      var key :| key in todo;
      todo := todo - {key};
      var change := CompareStop(was, now, oldActions, newActions, key);
      if change.Some? {
        changes := changes[key := change.value];
      }
    }
  }

  method CompareOrders(base: Snapshot, candidate: Snapshot, touched: set<Id>) returns (views: map<Id, OrderView>)
    ensures views == OrderViews(base, candidate, touched)
  {
    views := map[];
    var todo := MembersById(base.members).Keys + MembersById(candidate.members).Keys;
    while todo != {}
      invariant todo <= OrderIds(base, candidate)
      invariant views == map o | o in OrderIds(base, candidate) - todo ::
                           OrderViewOf(OrderSideOf(base, o), OrderSideOf(candidate, o), o in touched)
    {
      var o :| o in todo;
      todo := todo - {o};
      views := views[o := OrderViewOf(OrderSideOf(base, o), OrderSideOf(candidate, o), o in touched)];
    }
  }

  /** The loop that fills `affected`. */
  method AffectedBy(orders: map<Id, OrderView>, routes: map<Id, RouteChange>) returns (affected: set<Id>)
    ensures affected == AffectedVehicles(orders, routes)
  {
    affected := routes.Keys;
    var todo := orders.Keys;
    while todo != {}
      invariant todo <= orders.Keys
      invariant affected == routes.Keys
                + set o, v | o in orders && o !in todo && orders[o].assignmentChanged && v in VehiclesOf(orders[o]) :: v
    {
      var o :| o in todo;
      todo := todo - {o};
      if orders[o].assignmentChanged {
        affected := affected + VehiclesOf(orders[o]);
      }
    }
  }

  lemma {:induction false} CountOneMore(s: set<Key>, done: set<Key>, key: Key)
    requires key !in done
    ensures |s * (done + {key})| == |s * done| + if key in s then 1 else 0
  {
    assert s * (done + {key}) == s * done + if key in s then {key} else {};
  }

  function ExecutedOf(keys: set<Key>, actions: map<Key, Action>): set<Key>
    requires keys <= actions.Keys
  {
    set key | key in keys && actions[key].stop.status == Completed
  }

  /** The loop over the unchanged actions. */
  method CountUnchanged(keys: set<Key>, actions: map<Key, Action>) returns (kept: nat, protectedStops: nat)
    requires keys <= actions.Keys
    ensures kept == |keys| && protectedStops == |ExecutedOf(keys, actions)|
  {
    kept, protectedStops := 0, 0;
    var todo := keys;
    ghost var done: set<Key> := {};
    while todo != {}
      invariant todo !! done && todo + done == keys
      invariant kept == |done| && protectedStops == |ExecutedOf(keys, actions) * done|
      decreases |todo|
    {
      var key :| key in todo;
      todo := todo - {key};
      CountOneMore(ExecutedOf(keys, actions), done, key);
      done := done + {key};
      kept := kept + 1;
      if actions[key].stop.status == Completed {
        protectedStops := protectedStops + 1;
      }
    }
    assert done == keys;
    assert ExecutedOf(keys, actions) * done == ExecutedOf(keys, actions);
  }
}

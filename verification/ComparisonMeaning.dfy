/** What a comparison reports, told in the rows of the two plans alone. */
module ComparisonMeaning {
  import opened Ordering
  import opened Domain
  import opened Candidate
  import opened Comparison
  import opened RecoveryHistory

  // ----- the same stop in two plans -----

  ghost predicate StopAt(routes: seq<Route>, r: int, k: int) {
    0 <= r < |routes| && 0 <= k < |routes[r].stops|
  }

  /** Stop k of route r does this action: a handover counts per incident. */
  ghost predicate Does(routes: seq<Route>, r: int, k: int, key: Key) {
    && StopAt(routes, r, k)
    && var stop := routes[r].stops[k];
       && stop.orderId == key.orderId && stop.kind == key.kind
       && key.incident == if stop.kind == Handover then stop.incident else None
  }

  /** Row ids are primary keys. */
  ghost predicate RowIdsDiffer(routes: seq<Route>) {
    forall r, k, q, m :: StopAt(routes, r, k) && StopAt(routes, q, m) && routes[r].stops[k].id == routes[q].stops[m].id ==> r == q && k == m
  }

  ghost predicate ActionsDiffer(routes: seq<Route>) {
    forall r, k, q, m, key :: Does(routes, r, k, key) && Does(routes, q, m, key) ==> r == q && k == m
  }

  /** The stop names stop m of route q as the one that must come before. */
  ghost predicate Names(routes: seq<Route>, stop: Stop, q: int, m: int) {
    StopAt(routes, q, m) && stop.precedence == Some(routes[q].stops[m].id)
  }

  ghost predicate NamesNone(routes: seq<Route>, stop: Stop) {
    forall q, m :: !Names(routes, stop, q, m)
  }

  /** The two name the same action at the same place, or both none. */
  ghost predicate SameNamed(x: seq<Route>, a: Stop, y: seq<Route>, b: Stop) {
    || (NamesNone(x, a) && NamesNone(y, b))
    || exists q, m, r, k, key :: Names(x, a, q, m) && Names(y, b, r, k) && SameTask(x, q, m, y, r, k, key)
  }

  ghost predicate SameTask(x: seq<Route>, q: int, m: int, y: seq<Route>, r: int, k: int, key: Key) {
    Does(x, q, m, key) && Does(y, r, k, key) && x[q].stops[m].locationId == y[r].stops[k].locationId
  }

  /** Nothing a reader would call a change: an executed stop has its vehicle, place and recorded times, an open
      one also its number, planned times and status. */
  ghost predicate SameStop(x: seq<Route>, r: int, k: int, y: seq<Route>, q: int, m: int)
    requires StopAt(x, r, k) && StopAt(y, q, m)
  {
    var a, b := x[r].stops[k], y[q].stops[m];
    && x[r].vehicleId == y[q].vehicleId && a.locationId == b.locationId
    && a.actualArrival == b.actualArrival && a.actualDeparture == b.actualDeparture
    && a.status == b.status
    && (a.status != Completed ==>
         a.sequenceNo == b.sequenceNo && a.plannedArrival == b.plannedArrival && a.plannedDeparture == b.plannedDeparture)
    && SameNamed(x, a, y, b)
  }

  ghost predicate IsDone(routes: seq<Route>, key: Key) {
    exists r, k :: Does(routes, r, k, key)
  }

  /** Both plans do the action, and the same way. */
  ghost predicate StaysSame(x: seq<Route>, y: seq<Route>, key: Key) {
    exists r, k, q, m :: Does(x, r, k, key) && Does(y, q, m, key) && SameStop(x, r, k, y, q, m)
  }

  // ----- actions and their rows -----

  lemma {:induction false} DoesIsKey(routes: seq<Route>, r: int, k: int, key: Key)
    requires StopAt(routes, r, k)
    ensures Does(routes, r, k, key) <==> KeyOf(routes[r].stops[k]) == key
  {
  }

  lemma {:induction false} ListedOnce(routes: seq<Route>, r: nat, k: nat, q: nat, m: nat)
    requires StopAt(routes, r, k) && StopAt(routes, q, m)
    requires Offset(routes, r) + k == Offset(routes, q) + m
    ensures r == q && k == m
  {
    if r < q { OffsetOrder(routes, r, q); }
    if q < r { OffsetOrder(routes, q, r); }
  }

  lemma {:induction false} OffsetOrder(routes: seq<Route>, r: nat, q: nat)
    requires r < q <= |routes|
    ensures Offset(routes, r) + |routes[r].stops| <= Offset(routes, q)
    decreases q
  {
    OnVehiclePrefix(routes[q - 1].stops, routes[q - 1].vehicleId, 0);
    assert routes[..q][..q - 1] == routes[..q - 1];
    if r < q - 1 { OffsetOrder(routes, r, q - 1); }
  }

  lemma {:induction false} DistinctIdsIff(routes: seq<Route>)
    requires RowIdsDiffer(routes)
    ensures DistinctIds(Actions(routes))
  {
    var actions := Actions(routes);
    forall p, q | 0 <= p < q < |actions| ensures actions[p].stop.id != actions[q].stop.id {
      var r, k := ActionFrom(routes, p);
      var s, m := ActionFrom(routes, q);
      assert StopAt(routes, r, k) && StopAt(routes, s, m);
    }
  }

  lemma {:induction false} DistinctKeysIff(routes: seq<Route>)
    ensures DistinctKeys(Actions(routes)) <==> ActionsDiffer(routes)
  {
    var actions := Actions(routes);
    if DistinctKeys(actions) {
      forall r, k, q, m, key | Does(routes, r, k, key) && Does(routes, q, m, key) ensures r == q && k == m {
        ActionAt(routes, r, k);
        ActionAt(routes, q, m);
        ListedOnce(routes, r, k, q, m);
      }
    }
    if ActionsDiffer(routes) {
      forall p, q | 0 <= p < q < |actions| ensures KeyOf(actions[p].stop) != KeyOf(actions[q].stop) {
        var r, k := ActionFrom(routes, p);
        var s, m := ActionFrom(routes, q);
        if KeyOf(actions[p].stop) == KeyOf(actions[q].stop) {
          assert Does(routes, r, k, KeyOf(actions[p].stop)) && Does(routes, s, m, KeyOf(actions[p].stop));
        }
      }
    }
  }

  /** The action under a key is the stop that does it. */
  lemma {:induction false} ByKeyIs(routes: seq<Route>, key: Key)
    requires ActionsDiffer(routes)
    ensures key in ByKey(Actions(routes)) <==> IsDone(routes, key)
    ensures forall r, k :: Does(routes, r, k, key) ==>
              key in ByKey(Actions(routes)) && ByKey(Actions(routes))[key] == Action(routes[r].stops[k], routes[r].vehicleId)
  {
    var actions := Actions(routes);
    DistinctKeysIff(routes);
    ByKeyHas(actions, key);
    if key in ByKey(actions) {
      var p :| 0 <= p < |actions| && KeyOf(actions[p].stop) == key;
      var r, k := ActionFrom(routes, p);
      assert Does(routes, r, k, key);
    }
    forall r, k | Does(routes, r, k, key)
      ensures key in ByKey(actions) && ByKey(actions)[key] == Action(routes[r].stops[k], routes[r].vehicleId)
    {
      ActionAt(routes, r, k);
      ByKeyAt(actions, Offset(routes, r) + k);
    }
  }

  lemma {:induction false} FindByIdFinds(actions: seq<Action>, id: Id)
    ensures FindById(actions, id).Some? <==> exists p :: 0 <= p < |actions| && actions[p].stop.id == id
  {
    if actions != [] {
      FindByIdFinds(actions[1..], id);
      if p :| 0 <= p < |actions| && actions[p].stop.id == id {
        if 0 < p { assert actions[1..][p - 1].stop.id == id; }
      }
    }
  }

  /** The predecessor is the stop that is named. */
  lemma {:induction false} PredecessorIs(routes: seq<Route>, stop: Stop)
    requires RowIdsDiffer(routes)
    ensures PredecessorOf(stop, Actions(routes)) == None <==> NamesNone(routes, stop)
    ensures forall q, m :: Names(routes, stop, q, m) ==>
              PredecessorOf(stop, Actions(routes)) == Some(Predecessor(KeyOf(routes[q].stops[m]), routes[q].stops[m].locationId))
  {
    var actions := Actions(routes);
    DistinctIdsIff(routes);
    forall q, m | Names(routes, stop, q, m) ensures FindById(actions, routes[q].stops[m].id) == Some(routes[q].stops[m]) {
      ActionAt(routes, q, m);
      FindIs(actions, Offset(routes, q) + m);
    }
    if PredecessorOf(stop, actions).Some? {
      FindByIdFinds(actions, stop.precedence.value);
      var p :| 0 <= p < |actions| && actions[p].stop.id == stop.precedence.value;
      var q, m := ActionFrom(routes, p);
      assert Names(routes, stop, q, m);
    }
  }

  lemma {:induction false} SameNamedIff(x: seq<Route>, a: Stop, y: seq<Route>, b: Stop)
    requires RowIdsDiffer(x) && RowIdsDiffer(y)
    ensures PredecessorOf(a, Actions(x)) == PredecessorOf(b, Actions(y)) <==> SameNamed(x, a, y, b)
  {
    PredecessorIs(x, a);
    PredecessorIs(y, b);
    if !NamesNone(x, a) && !NamesNone(y, b) {
      var q, m :| Names(x, a, q, m);
      var r, k :| Names(y, b, r, k);
      if PredecessorOf(a, Actions(x)) == PredecessorOf(b, Actions(y)) {
        assert SameTask(x, q, m, y, r, k, KeyOf(x[q].stops[m]));
      }
    }
  }

  /** Equal signatures mean the same stop. */
  lemma {:induction false} SignatureIff(x: seq<Route>, r: int, k: int, y: seq<Route>, q: int, m: int)
    requires RowIdsDiffer(x) && RowIdsDiffer(y) && StopAt(x, r, k) && StopAt(y, q, m)
    ensures SignatureOf(Action(x[r].stops[k], x[r].vehicleId), Actions(x)) == SignatureOf(Action(y[q].stops[m], y[q].vehicleId), Actions(y))
            <==> SameStop(x, r, k, y, q, m)
  {
    SameNamedIff(x, x[r].stops[k], y, y[q].stops[m]);
  }

  lemma {:induction false} UnchangedIff(x: seq<Route>, y: seq<Route>, key: Key)
    requires RowIdsDiffer(x) && RowIdsDiffer(y) && ActionsDiffer(x) && ActionsDiffer(y)
    ensures Unchanged(Actions(x), Actions(y), key) <==> StaysSame(x, y, key)
  {
    ByKeyIs(x, key);
    ByKeyIs(y, key);
    if IsDone(x, key) && IsDone(y, key) {
      var r, k :| Does(x, r, k, key);
      var q, m :| Does(y, q, m, key);
      SignatureIff(x, r, k, y, q, m);
    }
  }

  // ----- stop changes -----

  /** One side of a reported change shows its stop. */
  ghost predicate SideShows(routes: seq<Route>, r: int, k: int, side: Side)
    requires StopAt(routes, r, k)
  {
    var stop := routes[r].stops[k];
    && side.sequenceNo == stop.sequenceNo && side.plannedArrival == stop.plannedArrival && side.plannedDeparture == stop.plannedDeparture
    && side.signature.vehicleId == routes[r].vehicleId && side.signature.location == stop.locationId
    && side.signature.arrival == stop.actualArrival && side.signature.departure == stop.actualDeparture
    && (side.signature.Executed? <==> stop.status == Completed)
    && (side.signature.Open? ==> side.signature.status == stop.status)
    && (NamesNone(routes, stop) ==> side.signature.predecessor == None)
    && forall q, m, key :: Names(routes, stop, q, m) && Does(routes, q, m, key) ==>
         side.signature.predecessor == Some(Predecessor(key, routes[q].stops[m].locationId))
  }

  ghost predicate ShownSide(routes: seq<Route>, key: Key, side: Option<Side>) {
    && (side.Some? <==> IsDone(routes, key))
    && forall r, k :: Does(routes, r, k, key) && side.Some? ==> SideShows(routes, r, k, side.value)
  }

  /** What is said about an action. */
  ghost predicate ChangeTells(x: seq<Route>, y: seq<Route>, key: Key, change: StopChange) {
    && change.change == (if !IsDone(y, key) then Removed else if !IsDone(x, key) then Added else Modified)
    && ShownSide(x, key, change.before) && ShownSide(y, key, change.after)
  }

  /** Plans that can be compared: rows are told apart by their ids, and no action is done twice. */
  ghost predicate Fit(p: Snapshot) {
    RowIdsDiffer(p.routes) && ActionsDiffer(p.routes)
  }

  lemma {:induction false} SideIs(routes: seq<Route>, r: int, k: int)
    requires RowIdsDiffer(routes) && StopAt(routes, r, k)
    ensures SideShows(routes, r, k, SideOf(Action(routes[r].stops[k], routes[r].vehicleId), Actions(routes)))
  {
    PredecessorIs(routes, routes[r].stops[k]);
  }

  lemma {:induction false} ShownSideIs(routes: seq<Route>, key: Key)
    requires RowIdsDiffer(routes) && ActionsDiffer(routes)
    ensures ShownSide(routes, key, if key in ByKey(Actions(routes)) then Some(SideOf(ByKey(Actions(routes))[key], Actions(routes))) else None)
  {
    ByKeyIs(routes, key);
    forall r, k | Does(routes, r, k, key) ensures SideShows(routes, r, k, SideOf(ByKey(Actions(routes))[key], Actions(routes))) {
      SideIs(routes, r, k);
    }
  }

  ghost predicate Reported(base: Snapshot, candidate: Snapshot, key: Key) {
    (IsDone(base.routes, key) || IsDone(candidate.routes, key)) && !StaysSame(base.routes, candidate.routes, key)
  }

  /** An action is reported exactly when one of the plans does it and it does not stay the same. */
  lemma {:induction false} StopsTell(base: Snapshot, candidate: Snapshot, key: Key)
    requires Fit(base) && Fit(candidate)
    ensures var stops := DiffOf(base, candidate).stops;
            && (key in stops <==> Reported(base, candidate, key))
            && (key in stops ==> ChangeTells(base.routes, candidate.routes, key, stops[key]))
  {
    UnchangedIff(base.routes, candidate.routes, key);
    ByKeyIs(base.routes, key);
    ByKeyIs(candidate.routes, key);
    ShownSideIs(base.routes, key);
    ShownSideIs(candidate.routes, key);
  }

  ghost predicate Touched(base: Snapshot, candidate: Snapshot, o: Id) {
    exists key: Key :: key.orderId == o && Reported(base, candidate, key)
  }

  lemma {:induction false} TouchedIff(base: Snapshot, candidate: Snapshot, o: Id)
    requires Fit(base) && Fit(candidate)
    ensures o in TouchedOrders(DiffOf(base, candidate).stops) <==> Touched(base, candidate, o)
  {
    var stops := DiffOf(base, candidate).stops;
    forall key ensures key in stops <==> Reported(base, candidate, key) { StopsTell(base, candidate, key); }
    if key: Key :| key.orderId == o && Reported(base, candidate, key) { assert key in stops; }
    if o in TouchedOrders(stops) {
      var key :| key in stops && key.orderId == o;
    }
  }

  // ----- members and vehicles -----

  /** The membership of an order; a later one would win. */
  ghost predicate MemberAt(members: seq<Member>, o: Id, i: int) {
    0 <= i < |members| && members[i].orderId == o && forall j :: i < j < |members| ==> members[j].orderId != o
  }

  ghost predicate RouteAt(routes: seq<Route>, id: Id, r: int) {
    0 <= r < |routes| && routes[r].id == id && forall j :: r < j < |routes| ==> routes[j].id != id
  }

  ghost predicate IsMember(p: Snapshot, o: Id) {
    exists i :: MemberAt(p.members, o, i)
  }

  /** The order is assigned to a route of vehicle v. */
  ghost predicate Drives(p: Snapshot, o: Id, v: Id) {
    exists i, r :: MemberAt(p.members, o, i) && p.members[i].routeId.Some? && RouteAt(p.routes, p.members[i].routeId.value, r) && p.routes[r].vehicleId == v
  }

  lemma {:induction false} MembersByIdIff(members: seq<Member>, o: Id)
    ensures o in MembersById(members) <==> exists i :: MemberAt(members, o, i)
    ensures forall i :: MemberAt(members, o, i) ==> o in MembersById(members) && MembersById(members)[o] == members[i]
  {
    if members != [] {
      var front, last := members[..|members| - 1], members[|members| - 1];
      MembersByIdIff(front, o);
      if last.orderId == o {
        assert MemberAt(members, o, |members| - 1);
      } else {
        forall i ensures MemberAt(members, o, i) <==> MemberAt(front, o, i) { }
      }
    }
  }

  lemma {:induction false} RoutesByIdIff(routes: seq<Route>, id: Id)
    ensures id in RoutesById(routes) <==> exists r :: RouteAt(routes, id, r)
    ensures forall r :: RouteAt(routes, id, r) ==> id in RoutesById(routes) && RoutesById(routes)[id] == routes[r]
  {
    if routes != [] {
      var front, last := routes[..|routes| - 1], routes[|routes| - 1];
      RoutesByIdIff(front, id);
      if last.id == id {
        assert RouteAt(routes, id, |routes| - 1);
      } else {
        forall r ensures RouteAt(routes, id, r) <==> RouteAt(front, id, r) { }
      }
    }
  }

  lemma {:induction false} DrivesIff(p: Snapshot, o: Id, v: Id)
    ensures VehicleOfOrder(p, o) == Some(v) <==> Drives(p, o, v)
  {
    MembersByIdIff(p.members, o);
    if i :| MemberAt(p.members, o, i) {
      if p.members[i].routeId.Some? {
        RoutesByIdIff(p.routes, p.members[i].routeId.value);
      }
      forall j | MemberAt(p.members, o, j) ensures j == i { }
    }
  }

  lemma {:induction false} DrivesNone(p: Snapshot, o: Id)
    ensures VehicleOfOrder(p, o) == None <==> forall v :: !Drives(p, o, v)
  {
    if VehicleOfOrder(p, o).Some? { DrivesIff(p, o, VehicleOfOrder(p, o).value); }
    forall v: Id ensures VehicleOfOrder(p, o) == Some(v) <==> Drives(p, o, v) { DrivesIff(p, o, v); }
  }

  // ----- orders -----

  ghost predicate DeliversAt(p: Snapshot, o: Id, r: int, k: int) {
    StopAt(p.routes, r, k) && p.routes[r].stops[k].orderId == o && p.routes[r].stops[k].kind == Delivery
  }

  ghost predicate HasDelivered(p: Snapshot, o: Id) {
    exists r, k :: DeliversAt(p, o, r, k) && p.routes[r].stops[k].status == Completed
  }

  /** The order is due at t, by its delivery on the vehicle it is assigned to. */
  ghost predicate DueAt(p: Snapshot, o: Id, t: Instant) {
    exists v, r, k :: Drives(p, o, v) && DeliversAt(p, o, r, k) && p.routes[r].vehicleId == v && p.routes[r].stops[k].plannedArrival == t
  }

  lemma {:induction false} DeliveryIs(p: Snapshot, o: Id)
    requires Fit(p)
    ensures DeliveryOfOrder(p, o) == None <==> forall r, k :: !DeliversAt(p, o, r, k)
    ensures forall r, k :: DeliversAt(p, o, r, k) ==> DeliveryOfOrder(p, o) == Some(Action(p.routes[r].stops[k], p.routes[r].vehicleId))
  {
    var key := Key(o, Delivery, None);
    ByKeyIs(p.routes, key);
    forall r, k ensures DeliversAt(p, o, r, k) <==> Does(p.routes, r, k, key) { }
  }

  lemma {:induction false} EtaIff(p: Snapshot, o: Id, t: Instant)
    requires Fit(p)
    ensures EtaOf(OrderSideOf(p, o)) == Some(t) <==> DueAt(p, o, t)
    ensures Delivered(OrderSideOf(p, o)) <==> HasDelivered(p, o)
  {
    DeliveryIs(p, o);
    DrivesNone(p, o);
    if VehicleOfOrder(p, o).Some? { DrivesIff(p, o, VehicleOfOrder(p, o).value); }
    if v, r, k :| Drives(p, o, v) && DeliversAt(p, o, r, k) && p.routes[r].vehicleId == v && p.routes[r].stops[k].plannedArrival == t {
      DrivesIff(p, o, v);
    }
    if r, k :| DeliversAt(p, o, r, k) { }
  }

  ghost predicate IsVehicle(p: Snapshot, o: Id, vehicle: Option<Id>) {
    match vehicle case None => (forall v :: !Drives(p, o, v)) case Some(v) => Drives(p, o, v)
  }

  ghost predicate IsDue(p: Snapshot, o: Id, eta: Option<Instant>) {
    match eta case None => (forall t :: !DueAt(p, o, t)) case Some(t) => DueAt(p, o, t)
  }

  lemma {:induction false} EtaIs(p: Snapshot, o: Id)
    requires Fit(p)
    ensures IsDue(p, o, EtaOf(OrderSideOf(p, o))) && IsVehicle(p, o, VehicleOfOrder(p, o))
    ensures Delivered(OrderSideOf(p, o)) <==> HasDelivered(p, o)
  {
    forall t ensures EtaOf(OrderSideOf(p, o)) == Some(t) <==> DueAt(p, o, t) { EtaIff(p, o, t); }
    EtaIff(p, o, 0);
    DrivesNone(p, o);
    if VehicleOfOrder(p, o).Some? { DrivesIff(p, o, VehicleOfOrder(p, o).value); }
  }

  /** Both plans have the order as a member, on a route or not, with the same reason, and on the same
      vehicle. */
  ghost predicate SameAssignment(x: Snapshot, y: Snapshot, o: Id) {
    && (IsMember(x, o) <==> IsMember(y, o))
    && (forall i, j :: MemberAt(x.members, o, i) && MemberAt(y.members, o, j) ==>
         (x.members[i].routeId.Some? <==> y.members[j].routeId.Some?) && x.members[i].reason == y.members[j].reason)
    && forall v :: Drives(x, o, v) <==> Drives(y, o, v)
  }

  /** An order whose delivery is done in either plan has no estimate; the others have those that both plans
      give, and the difference if both do. */
  ghost predicate EstimatesTell(x: Snapshot, y: Snapshot, o: Id, view: OrderView) {
    if HasDelivered(x, o) || HasDelivered(y, o) then
      view.beforeEta == None && view.afterEta == None && view.delta == None && view.basis == NoBasis && view.unavailable == CompletedDelivery
    else
      && IsDue(x, o, view.beforeEta) && IsDue(y, o, view.afterEta)
      && (view.delta.Some? <==> view.beforeEta.Some? && view.afterEta.Some?)
      && (view.delta.Some? ==> view.beforeEta.value + view.delta.value == view.afterEta.value)
      && view.basis == (if view.beforeEta == None && view.afterEta == None then NoBasis else PlannedArrival)
      && view.unavailable == if view.delta.Some? then NoBasis else NotAvailable
  }

  ghost predicate OrderTells(x: Snapshot, y: Snapshot, o: Id, view: OrderView) {
    && IsVehicle(x, o, view.beforeVehicle) && IsVehicle(y, o, view.afterVehicle)
    && (view.assignmentChanged <==> !SameAssignment(x, y, o))
    && (view.routeTaskChanged <==> Touched(x, y, o))
    && EstimatesTell(x, y, o, view)
  }

  lemma {:induction false} AssignmentIff(x: Snapshot, y: Snapshot, o: Id)
    requires Fit(x) && Fit(y)
    ensures var a, b := OrderSideOf(x, o), OrderSideOf(y, o);
            (a.onRoute, a.vehicleId, a.reason) == (b.onRoute, b.vehicleId, b.reason) <==> SameAssignment(x, y, o)
  {
    MembersByIdIff(x.members, o);
    MembersByIdIff(y.members, o);
    VehiclesAgree(x, y, o);
    if IsMember(x, o) && IsMember(y, o) {
      var i :| MemberAt(x.members, o, i);
      var j :| MemberAt(y.members, o, j);
    }
  }

  lemma {:induction false} VehiclesAgree(x: Snapshot, y: Snapshot, o: Id)
    ensures VehicleOfOrder(x, o) == VehicleOfOrder(y, o) <==> forall v :: Drives(x, o, v) <==> Drives(y, o, v)
  {
    DrivesNone(x, o);
    DrivesNone(y, o);
    forall v: Id ensures (VehicleOfOrder(x, o) == Some(v) <==> Drives(x, o, v)) && (VehicleOfOrder(y, o) == Some(v) <==> Drives(y, o, v)) {
      DrivesIff(x, o, v);
      DrivesIff(y, o, v);
    }
  }

  /** There is a view of every order that is a member of either plan, and it tells this. */
  lemma {:induction false} OrdersTell(base: Snapshot, candidate: Snapshot, o: Id)
    requires Fit(base) && Fit(candidate)
    ensures var orders := DiffOf(base, candidate).orders;
            && (o in orders <==> IsMember(base, o) || IsMember(candidate, o))
            && (o in orders ==> OrderTells(base, candidate, o, orders[o]))
  {
    MembersByIdIff(base.members, o);
    MembersByIdIff(candidate.members, o);
    EtaIs(base, o);
    EtaIs(candidate, o);
    AssignmentIff(base, candidate, o);
    TouchedIff(base, candidate, o);
  }

  // ----- routes -----

  /** The route of a vehicle; a later one would win. */
  ghost predicate RouteOf(routes: seq<Route>, v: Id, r: int) {
    0 <= r < |routes| && routes[r].vehicleId == v && forall j :: r < j < |routes| ==> routes[j].vehicleId != v
  }

  ghost predicate HasRoute(routes: seq<Route>, v: Id) {
    exists r :: RouteOf(routes, v, r)
  }

  ghost predicate SameTaskAt(x: seq<Route>, r: int, y: seq<Route>, q: int, k: nat)
    requires StopAt(x, r, k) && StopAt(y, q, k)
  {
    && SameStop(x, r, k, y, q, k)
    && var a, b := x[r].stops[k], y[q].stops[k];
       a.orderId == b.orderId && a.kind == b.kind && (a.kind == Handover ==> a.incident == b.incident)
  }

  /** Stop by stop the same tasks, done the same way. */
  ghost predicate SameTasks(x: seq<Route>, r: int, y: seq<Route>, q: int) {
    && 0 <= r < |x| && 0 <= q < |y| && |x[r].stops| == |y[q].stops|
    && forall k :: 0 <= k < |x[r].stops| ==> SameTaskAt(x, r, y, q, k)
  }

  ghost predicate SameRun(x: seq<Route>, y: seq<Route>, v: Id) {
    exists r, q :: RouteOf(x, v, r) && RouteOf(y, v, q) && SameTasks(x, r, y, q)
  }

  ghost predicate RouteShown(routes: seq<Route>, v: Id, side: Option<RouteSide>) {
    && (side.Some? <==> HasRoute(routes, v))
    && forall r :: RouteOf(routes, v, r) ==> side == Some(RouteSide(routes[r].id, |routes[r].stops|))
  }

  lemma {:induction false} RoutesByVehicleIdIff(routes: seq<Route>, v: Id)
    ensures v in RoutesByVehicleId(routes) <==> HasRoute(routes, v)
    ensures forall r :: RouteOf(routes, v, r) ==> v in RoutesByVehicleId(routes) && RoutesByVehicleId(routes)[v] == routes[r]
  {
    if routes != [] {
      var front, last := routes[..|routes| - 1], routes[|routes| - 1];
      RoutesByVehicleIdIff(front, v);
      if last.vehicleId == v {
        assert RouteOf(routes, v, |routes| - 1);
      } else {
        forall r ensures RouteOf(routes, v, r) <==> RouteOf(front, v, r) { }
      }
    }
  }

  lemma {:induction false} TaskIff(x: seq<Route>, r: int, y: seq<Route>, q: int, k: nat)
    requires RowIdsDiffer(x) && RowIdsDiffer(y) && StopAt(x, r, k) && StopAt(y, q, k)
    ensures (KeyOf(x[r].stops[k]), SignatureOf(Action(x[r].stops[k], x[r].vehicleId), Actions(x)))
            == (KeyOf(y[q].stops[k]), SignatureOf(Action(y[q].stops[k], y[q].vehicleId), Actions(y)))
            <==> SameTaskAt(x, r, y, q, k)
  {
    SignatureIff(x, r, k, y, q, k);
  }

  lemma {:induction false} SignaturesAt(route: Route, actions: seq<Action>, n: nat, k: nat)
    requires k < n <= |route.stops|
    ensures |RouteSignature(route, actions, n)| == n
    ensures RouteSignature(route, actions, n)[k] == (KeyOf(route.stops[k]), SignatureOf(Action(route.stops[k], route.vehicleId), actions))
  {
    SignatureLength(route, actions, n - 1);
    if k < n - 1 { SignaturesAt(route, actions, n - 1, k); }
  }

  lemma {:induction false} SignatureLength(route: Route, actions: seq<Action>, n: nat)
    requires n <= |route.stops|
    ensures |RouteSignature(route, actions, n)| == n
  {
    if 0 < n { SignatureLength(route, actions, n - 1); }
  }

  lemma {:induction false} TasksIff(x: seq<Route>, r: nat, y: seq<Route>, q: nat)
    requires RowIdsDiffer(x) && RowIdsDiffer(y) && r < |x| && q < |y|
    ensures RouteSignature(x[r], Actions(x), |x[r].stops|) == RouteSignature(y[q], Actions(y), |y[q].stops|) <==> SameTasks(x, r, y, q)
  {
    var a, b := RouteSignature(x[r], Actions(x), |x[r].stops|), RouteSignature(y[q], Actions(y), |y[q].stops|);
    SignatureLength(x[r], Actions(x), |x[r].stops|);
    SignatureLength(y[q], Actions(y), |y[q].stops|);
    if |x[r].stops| == |y[q].stops| {
      forall k | 0 <= k < |x[r].stops| ensures a[k] == b[k] <==> SameTaskAt(x, r, y, q, k) {
        SignaturesAt(x[r], Actions(x), |x[r].stops|, k);
        SignaturesAt(y[q], Actions(y), |y[q].stops|, k);
        TaskIff(x, r, y, q, k);
      }
      if SameTasks(x, r, y, q) {
        forall k | 0 <= k < |a| ensures a[k] == b[k] { assert SameTaskAt(x, r, y, q, k); }
      }
    }
  }

  lemma {:induction false} SameRouteIff(base: Snapshot, candidate: Snapshot, v: Id)
    requires Fit(base) && Fit(candidate)
    ensures Comparison.SameRoute(base, candidate, v) <==> SameRun(base.routes, candidate.routes, v)
  {
    var x, y := base.routes, candidate.routes;
    RoutesByVehicleIdIff(x, v);
    RoutesByVehicleIdIff(y, v);
    if r, q :| RouteOf(x, v, r) && RouteOf(y, v, q) {
      TasksIff(x, r, y, q);
      forall s | RouteOf(x, v, s) ensures s == r { }
      forall t | RouteOf(y, v, t) ensures t == q { }
    }
  }

  /** A vehicle is reported exactly when one of the plans has a route of it and they do not run the same. */
  lemma {:induction false} RoutesTell(base: Snapshot, candidate: Snapshot, v: Id)
    requires Fit(base) && Fit(candidate)
    ensures var routes := DiffOf(base, candidate).routes;
            && (v in routes <==> (HasRoute(base.routes, v) || HasRoute(candidate.routes, v)) && !SameRun(base.routes, candidate.routes, v))
            && (v in routes ==> RouteShown(base.routes, v, routes[v].before) && RouteShown(candidate.routes, v, routes[v].after))
  {
    SameRouteIff(base, candidate, v);
    RoutesByVehicleIdIff(base.routes, v);
    RoutesByVehicleIdIff(candidate.routes, v);
  }

  // ----- sets and counts -----

  lemma {:induction false} ReassignedIs(base: Snapshot, candidate: Snapshot, o: Id)
    ensures o in DiffOf(base, candidate).reassigned <==>
              && (o in MembersById(base.members) || o in MembersById(candidate.members))
              && VehicleOfOrder(base, o).Some? && VehicleOfOrder(candidate, o).Some?
              && VehicleOfOrder(base, o) != VehicleOfOrder(candidate, o)
  {
  }

  /** An order is counted as reassigned exactly when both plans put it on a route and the vehicles of the two
      routes differ. */
  lemma {:induction false} ReassignedTell(base: Snapshot, candidate: Snapshot, o: Id)
    ensures o in DiffOf(base, candidate).reassigned <==> exists v, w :: Drives(base, o, v) && Drives(candidate, o, w) && v != w
  {
    ReassignedIs(base, candidate, o);
    MembersByIdIff(base.members, o);
    DrivesNone(base, o);
    DrivesNone(candidate, o);
    if VehicleOfOrder(base, o).Some? { DrivesIff(base, o, VehicleOfOrder(base, o).value); }
    if VehicleOfOrder(candidate, o).Some? { DrivesIff(candidate, o, VehicleOfOrder(candidate, o).value); }
    OneVehicle(base, o);
    OneVehicle(candidate, o);
  }

  lemma {:induction false} OneVehicle(p: Snapshot, o: Id)
    ensures forall v, w :: Drives(p, o, v) && Drives(p, o, w) ==> v == w
  {
    forall v, w | Drives(p, o, v) && Drives(p, o, w) ensures v == w {
      DrivesIff(p, o, v);
      DrivesIff(p, o, w);
    }
  }

  lemma {:induction false} AffectedIs(base: Snapshot, candidate: Snapshot, v: Id)
    ensures var d := DiffOf(base, candidate);
            v in d.affected <==> v in d.routes || exists o :: o in d.orders && d.orders[o].assignmentChanged && v in VehiclesOf(d.orders[o])
  {
  }

  lemma {:induction false} ChangesVehicle(base: Snapshot, candidate: Snapshot, o: Id, v: Id)
    requires Fit(base) && Fit(candidate)
    ensures var orders := DiffOf(base, candidate).orders;
            (o in orders && orders[o].assignmentChanged && v in VehiclesOf(orders[o]))
            <==> (Drives(base, o, v) || Drives(candidate, o, v)) && !SameAssignment(base, candidate, o)
  {
    OrdersTell(base, candidate, o);
    OneVehicle(base, o);
    OneVehicle(candidate, o);
  }

  /** A vehicle is affected exactly when its route is reported or an order comes to it or leaves it, or its
      order's assignment changes in another way. */
  lemma {:induction false} AffectedTell(base: Snapshot, candidate: Snapshot, v: Id)
    requires Fit(base) && Fit(candidate)
    ensures v in DiffOf(base, candidate).affected <==>
              || ((HasRoute(base.routes, v) || HasRoute(candidate.routes, v)) && !SameRun(base.routes, candidate.routes, v))
              || exists o :: (Drives(base, o, v) || Drives(candidate, o, v)) && !SameAssignment(base, candidate, o)
  {
    AffectedIs(base, candidate, v);
    RoutesTell(base, candidate, v);
    var orders := DiffOf(base, candidate).orders;
    if o :| (Drives(base, o, v) || Drives(candidate, o, v)) && !SameAssignment(base, candidate, o) {
      ChangesVehicle(base, candidate, o, v);
    }
    if o :| o in orders && orders[o].assignmentChanged && v in VehiclesOf(orders[o]) {
      ChangesVehicle(base, candidate, o, v);
    }
  }

  /** Frozen are the orders delivered in both plans with nothing about them reported. */
  lemma {:induction false} FrozenTell(base: Snapshot, candidate: Snapshot, o: Id)
    requires Fit(base) && Fit(candidate)
    ensures o in DiffOf(base, candidate).frozen <==>
              HasDelivered(base, o) && HasDelivered(candidate, o) && !Touched(base, candidate, o)
  {
    var was, now, key := ByKey(Actions(base.routes)), ByKey(Actions(candidate.routes)), Key(o, Delivery, None);
    TouchedIff(base, candidate, o);
    DeliveredIff(base, o);
    DeliveredIff(candidate, o);
    DeliveryKey(base, o);
    if HasDelivered(base, o) && HasDelivered(candidate, o) && !Touched(base, candidate, o) {
      assert IsFrozen(was, now, TouchedOrders(DiffOf(base, candidate).stops), key);
    }
  }

  lemma {:induction false} DeliveredIff(p: Snapshot, o: Id)
    requires Fit(p)
    ensures HasDelivered(p, o) <==>
              var actions, key := ByKey(Actions(p.routes)), Key(o, Delivery, None); key in actions && actions[key].stop.status == Completed
  {
    var key := Key(o, Delivery, None);
    ByKeyIs(p.routes, key);
    forall r, k ensures DeliversAt(p, o, r, k) <==> Does(p.routes, r, k, key) { }
  }

  lemma {:induction false} DeliveryKey(p: Snapshot, o: Id)
    requires Fit(p)
    ensures forall key :: key in ByKey(Actions(p.routes)) && key.kind == Delivery && key.orderId == o ==> key == Key(o, Delivery, None)
  {
    forall key | key in ByKey(Actions(p.routes)) && key.kind == Delivery && key.orderId == o ensures key == Key(o, Delivery, None) {
      ByKeyIs(p.routes, key);
    }
  }

  ghost predicate IsExecuted(routes: seq<Route>, key: Key) {
    exists r, k :: Does(routes, r, k, key) && routes[r].stops[k].status == Completed
  }

  /** The two counters: the actions that stay the same, and those of them that were executed. */
  lemma {:induction false} CountsTell(base: Snapshot, candidate: Snapshot, same: set<Key>, done: set<Key>)
    requires Fit(base) && Fit(candidate)
    requires forall key :: key in same <==> StaysSame(base.routes, candidate.routes, key)
    requires forall key :: key in done <==> StaysSame(base.routes, candidate.routes, key) && IsExecuted(base.routes, key)
    ensures DiffOf(base, candidate).kept == |same| && DiffOf(base, candidate).protectedStops == |done|
  {
    var was, now := Actions(base.routes), Actions(candidate.routes);
    forall key ensures (key in UnchangedKeys(was, now) <==> key in same) && (key in ProtectedKeys(was, now) <==> key in done) {
      UnchangedIff(base.routes, candidate.routes, key);
      ByKeyIs(base.routes, key);
    }
    assert UnchangedKeys(was, now) == same && ProtectedKeys(was, now) == done;
  }

  /** The comparison is refused exactly when a plan does an action twice. */
  lemma {:induction false} ComparableIff(base: Snapshot, candidate: Snapshot)
    ensures DistinctKeys(Actions(base.routes)) && DistinctKeys(Actions(candidate.routes))
            <==> ActionsDiffer(base.routes) && ActionsDiffer(candidate.routes)
  {
    DistinctKeysIff(base.routes);
    DistinctKeysIff(candidate.routes);
  }
}

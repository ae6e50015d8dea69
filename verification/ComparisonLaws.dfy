/** The comparison is a faithful diff: it accounts for every action, looks the same from both
    sides and sees through a renaming of rows. */
module ComparisonLaws {
  import opened Ordering
  import opened Domain
  import opened Candidate
  import opened Comparison

  // ----- every action is accounted for -----

  lemma {:induction false} ByKeySize(actions: seq<Action>)
    requires DistinctKeys(actions)
    ensures |ByKey(actions).Keys| == |actions|
  {
    if actions != [] {
      var front, last := actions[..|actions| - 1], actions[|actions| - 1];
      ByKeySize(front);
      ByKeyHas(front, KeyOf(last.stop));
      assert ByKey(actions).Keys == ByKey(front).Keys + {KeyOf(last.stop)};
    }
  }

  function KeysWith(stops: map<Key, StopChange>, change: ChangeType): set<Key> {
    set key | key in stops && stops[key].change == change
  }

  /** Base actions are those unchanged, modified and removed; candidate actions are those
      unchanged, modified and added. */
  lemma {:induction false} EveryActionIsAccountedFor(base: Snapshot, candidate: Snapshot)
    requires DistinctKeys(Actions(base.routes)) && DistinctKeys(Actions(candidate.routes))
    ensures var d := DiffOf(base, candidate);
            && |Actions(base.routes)| == d.kept + |KeysWith(d.stops, Modified)| + |KeysWith(d.stops, Removed)|
            && |Actions(candidate.routes)| == d.kept + |KeysWith(d.stops, Modified)| + |KeysWith(d.stops, Added)|
  {
    var was, now := Actions(base.routes), Actions(candidate.routes);
    ByKeySize(was);
    ByKeySize(now);
    var stops, kept := StopChanges(was, now), UnchangedKeys(was, now);
    var modified, removed, added := KeysWith(stops, Modified), KeysWith(stops, Removed), KeysWith(stops, Added);
    ThreeWays(ByKey(was).Keys, kept, modified, removed);
    ThreeWays(ByKey(now).Keys, kept, modified, added);
  }

  lemma {:induction false} ThreeWays(all: set<Key>, x: set<Key>, y: set<Key>, z: set<Key>)
    requires forall key :: key in all <==> key in x || key in y || key in z
    requires x !! y && x !! z && y !! z
    ensures |all| == |x| + |y| + |z|
  {
    assert all == x + y + z;
  }

  /** An order without a reported stop change has the same actions in both plans, each with the
      same vehicle, place, times, status and predecessor. */
  lemma {:induction false} UntouchedOrdersAreIdentical(base: Snapshot, candidate: Snapshot, key: Key)
    requires key.orderId !in TouchedOrders(DiffOf(base, candidate).stops)
    ensures var was, now := Actions(base.routes), Actions(candidate.routes);
            && (key in ByKey(was) <==> key in ByKey(now))
            && (key in ByKey(was) ==> SignatureOf(ByKey(was)[key], was) == SignatureOf(ByKey(now)[key], now))
  {
    ReportedOrderIsTouched(DiffOf(base, candidate).stops, key);
  }

  lemma {:induction false} ReportedOrderIsTouched(stops: map<Key, StopChange>, key: Key)
    ensures key in stops ==> key.orderId in TouchedOrders(stops)
  {
  }

  /** And conversely a reported change is a real one. */
  lemma {:induction false} ReportedChangesAreReal(base: Snapshot, candidate: Snapshot, key: Key)
    requires key in DiffOf(base, candidate).stops
    ensures var was, now, c := Actions(base.routes), Actions(candidate.routes), DiffOf(base, candidate).stops[key];
            match c.change
            case Removed => key in ByKey(was) && key !in ByKey(now) && c.after == None
            case Added => key !in ByKey(was) && key in ByKey(now) && c.before == None
            case Modified => key in ByKey(was) && key in ByKey(now) && c.before.value.signature != c.after.value.signature
  {
  }

  // ----- from the other side -----

  function Opposite(change: ChangeType): ChangeType {
    match change case Modified => Modified case Removed => Added case Added => Removed
  }

  /** The same finding with the plans exchanged. */
  ghost predicate Mirrored(x: Diff, y: Diff) {
    && x.stops.Keys == y.stops.Keys
    && (forall key :: key in x.stops ==>
         y.stops[key] == StopChange(Opposite(x.stops[key].change), x.stops[key].after, x.stops[key].before))
    && x.orders.Keys == y.orders.Keys
    && (forall o :: o in x.orders ==> MirroredOrder(x.orders[o], y.orders[o]))
    && x.routes.Keys == y.routes.Keys
    && (forall v :: v in x.routes ==> y.routes[v] == RouteChange(x.routes[v].after, x.routes[v].before))
    && x.reassigned == y.reassigned && x.affected == y.affected && x.frozen == y.frozen
    && x.kept == y.kept && x.protectedStops == y.protectedStops
  }

  ghost predicate MirroredOrder(x: OrderView, y: OrderView) {
    && y.beforeVehicle == x.afterVehicle && y.afterVehicle == x.beforeVehicle
    && y.assignmentChanged == x.assignmentChanged && y.routeTaskChanged == x.routeTaskChanged
    && y.beforeEta == x.afterEta && y.afterEta == x.beforeEta
    && y.delta == (if x.delta.Some? then Some(-x.delta.value) else None)
    && y.basis == x.basis && y.unavailable == x.unavailable
  }

  lemma {:induction false} StopsMirror(was: seq<Action>, now: seq<Action>)
    ensures StopChanges(was, now).Keys == StopChanges(now, was).Keys
    ensures forall key :: key in StopChanges(was, now) ==>
              var c := StopChanges(was, now)[key]; StopChanges(now, was)[key] == StopChange(Opposite(c.change), c.after, c.before)
    ensures TouchedOrders(StopChanges(was, now)) == TouchedOrders(StopChanges(now, was))
    ensures UnchangedKeys(was, now) == UnchangedKeys(now, was) && ProtectedKeys(was, now) == ProtectedKeys(now, was)
  {
    forall key ensures Unchanged(was, now, key) == Unchanged(now, was, key) {
    }
  }

  lemma {:induction false} OrdersMirror(base: Snapshot, candidate: Snapshot, touched: set<Id>)
    ensures var x, y := OrderViews(base, candidate, touched), OrderViews(candidate, base, touched);
            && x.Keys == y.Keys && forall o :: o in x ==> MirroredOrder(x[o], y[o])
  {
    forall o | o in OrderIds(base, candidate)
      ensures MirroredOrder(OrderViewOf(OrderSideOf(base, o), OrderSideOf(candidate, o), o in touched),
                            OrderViewOf(OrderSideOf(candidate, o), OrderSideOf(base, o), o in touched))
    {
      ViewMirrors(OrderSideOf(base, o), OrderSideOf(candidate, o), o in touched);
    }
  }

  lemma {:induction false} ViewMirrors(x: OrderSide, y: OrderSide, touched: bool)
    ensures MirroredOrder(OrderViewOf(x, y, touched), OrderViewOf(y, x, touched))
  {
  }

  lemma {:induction false} RoutesMirror(base: Snapshot, candidate: Snapshot)
    ensures var x, y := RouteChanges(base, candidate), RouteChanges(candidate, base);
            && x.Keys == y.Keys && forall v :: v in x ==> y[v] == RouteChange(x[v].after, x[v].before)
  {
    forall v ensures SameRoute(base, candidate, v) == SameRoute(candidate, base, v) {
    }
  }

  lemma {:induction false} SetsMirror(x: map<Id, OrderView>, y: map<Id, OrderView>, r: map<Id, RouteChange>, s: map<Id, RouteChange>)
    requires x.Keys == y.Keys && (forall o :: o in x ==> MirroredOrder(x[o], y[o])) && r.Keys == s.Keys
    ensures ReassignedOrders(x) == ReassignedOrders(y) && AffectedVehicles(x, r) == AffectedVehicles(y, s)
  {
    forall o | o in x ensures Reassigned(x[o]) == Reassigned(y[o]) && VehiclesOf(x[o]) == VehiclesOf(y[o]) {
      assert MirroredOrder(x[o], y[o]);
    }
    forall v ensures v in AffectedVehicles(x, r) <==> v in AffectedVehicles(y, s) {
    }
  }

  lemma {:induction false} FrozenMirror(was: map<Key, Action>, now: map<Key, Action>, touched: set<Id>)
    requires forall key :: key in was && key.kind == Delivery ==> key.incident == None
    requires forall key :: key in now && key.kind == Delivery ==> key.incident == None
    ensures FrozenOrders(was, now, touched) == FrozenOrders(now, was, touched)
  {
    forall o | o in FrozenOrders(was, now, touched) ensures o in FrozenOrders(now, was, touched) {
      var key :| key in was && IsFrozen(was, now, touched, key) && key.orderId == o;
      assert key == Key(o, Delivery, None);
      assert IsFrozen(now, was, touched, key);
    }
    forall o | o in FrozenOrders(now, was, touched) ensures o in FrozenOrders(was, now, touched) {
      var key :| key in now && IsFrozen(now, was, touched, key) && key.orderId == o;
      assert key == Key(o, Delivery, None);
      assert IsFrozen(was, now, touched, key);
    }
  }

  lemma {:induction false} DeliveryKeys(actions: seq<Action>)
    ensures forall key :: key in ByKey(actions) && key.kind == Delivery ==> key.incident == None
  {
    forall key | key in ByKey(actions) ensures key.kind == Delivery ==> key.incident == None {
      ByKeyHas(actions, key);
    }
  }

  /** Exchanging the plans exchanges ADDED with REMOVED, negates the ETA deltas and keeps
      everything that does not depend on the direction. */
  lemma {:induction false} SwappingPlansMirrors(base: Snapshot, candidate: Snapshot)
    ensures Mirrored(DiffOf(base, candidate), DiffOf(candidate, base))
  {
    var was, now := Actions(base.routes), Actions(candidate.routes);
    StopsMirror(was, now);
    var touched := TouchedOrders(StopChanges(was, now));
    OrdersMirror(base, candidate, touched);
    RoutesMirror(base, candidate);
    SetsMirror(OrderViews(base, candidate, touched), OrderViews(candidate, base, touched),
               RouteChanges(base, candidate), RouteChanges(candidate, base));
    DeliveryKeys(was);
    DeliveryKeys(now);
    FrozenMirror(ByKey(was), ByKey(now), touched);
  }

  // ----- renaming rows -----

  /** New ids for stop rows and route rows. */
  datatype Renaming = Renaming(stop: Id -> Id, route: Id -> Id)

  ghost predicate Injective(f: Id -> Id) {
    forall x, y :: f(x) == f(y) ==> x == y
  }

  function RenamedOption(f: Id -> Id, id: Option<Id>): Option<Id> {
    if id.Some? then Some(f(id.value)) else None
  }

  function RenamedStop(r: Renaming, s: Stop): Stop {
    s.(id := r.stop(s.id), routeId := r.route(s.routeId), precedence := RenamedOption(r.stop, s.precedence))
  }

  function RenamedStops(r: Renaming, stops: seq<Stop>): seq<Stop> {
    if stops == [] then [] else RenamedStops(r, stops[..|stops| - 1]) + [RenamedStop(r, stops[|stops| - 1])]
  }

  function RenamedRoute(r: Renaming, route: Route): Route {
    route.(id := r.route(route.id), stops := RenamedStops(r, route.stops))
  }

  function RenamedRoutes(r: Renaming, routes: seq<Route>): seq<Route> {
    if routes == [] then [] else RenamedRoutes(r, routes[..|routes| - 1]) + [RenamedRoute(r, routes[|routes| - 1])]
  }

  function RenamedMembers(r: Renaming, members: seq<Member>): seq<Member> {
    if members == [] then []
    else
      var last := members[|members| - 1];
      RenamedMembers(r, members[..|members| - 1]) + [last.(routeId := RenamedOption(r.route, last.routeId))]
  }

  function RenamedPlan(r: Renaming, p: Snapshot): Snapshot {
    Snapshot(RenamedRoutes(r, p.routes), RenamedMembers(r, p.members))
  }

  function RenamedAction(r: Renaming, a: Action): Action {
    a.(stop := RenamedStop(r, a.stop))
  }

  /** y lists the renamed actions of x. */
  ghost predicate RenamedList(r: Renaming, x: seq<Action>, y: seq<Action>) {
    |x| == |y| && forall i :: 0 <= i < |x| ==> y[i] == RenamedAction(r, x[i])
  }

  lemma {:induction false} StopsRename(r: Renaming, stops: seq<Stop>, v: Id)
    ensures |RenamedStops(r, stops)| == |stops|
    ensures forall i :: 0 <= i < |stops| ==> RenamedStops(r, stops)[i] == RenamedStop(r, stops[i])
    ensures RenamedList(r, OnVehicle(stops, v), OnVehicle(RenamedStops(r, stops), v))
  {
    if stops != [] {
      StopsRename(r, stops[..|stops| - 1], v);
      var all := RenamedStops(r, stops);
      assert all[..|all| - 1] == RenamedStops(r, stops[..|stops| - 1]);
    }
  }

  lemma {:induction false} ActionsRename(r: Renaming, routes: seq<Route>)
    ensures RenamedList(r, Actions(routes), Actions(RenamedRoutes(r, routes)))
  {
    if routes != [] {
      ActionsRename(r, routes[..|routes| - 1]);
      StopsRename(r, routes[|routes| - 1].stops, routes[|routes| - 1].vehicleId);
      var all := RenamedRoutes(r, routes);
      assert all[..|all| - 1] == RenamedRoutes(r, routes[..|routes| - 1]);
    }
  }

  lemma {:induction false} KeysRename(r: Renaming, x: seq<Action>, y: seq<Action>)
    requires RenamedList(r, x, y)
    ensures ByKey(x).Keys == ByKey(y).Keys
    ensures forall key :: key in ByKey(x) ==> ByKey(y)[key] == RenamedAction(r, ByKey(x)[key])
    ensures DistinctKeys(x) <==> DistinctKeys(y)
  {
    if x != [] {
      KeysRename(r, x[..|x| - 1], y[..|y| - 1]);
    }
    assert forall i :: 0 <= i < |x| ==> KeyOf(y[i].stop) == KeyOf(x[i].stop);
  }

  lemma {:induction false} FindRenamed(r: Renaming, x: seq<Action>, y: seq<Action>, id: Id)
    requires RenamedList(r, x, y) && Injective(r.stop)
    ensures var a, b := FindById(x, id), FindById(y, r.stop(id)); a.Some? == b.Some? && (a.Some? ==> b.value == RenamedStop(r, a.value))
  {
    if x != [] {
      assert y[0] == RenamedAction(r, x[0]);
      FindRenamed(r, x[1..], y[1..], id);
    }
  }

  lemma {:induction false} SignatureRenamed(r: Renaming, x: seq<Action>, y: seq<Action>, a: Action)
    requires RenamedList(r, x, y) && Injective(r.stop)
    ensures SideOf(RenamedAction(r, a), y) == SideOf(a, x)
  {
    if a.stop.precedence.Some? {
      FindRenamed(r, x, y, a.stop.precedence.value);
    }
  }

  /** The same findings, action by action. */
  ghost predicate SameFindings(x: seq<Action>, x': seq<Action>, y: seq<Action>, y': seq<Action>) {
    && ByKey(x).Keys == ByKey(x').Keys && ByKey(y).Keys == ByKey(y').Keys
    && forall key :: key in Keys(x, y) ==> Unchanged(x', y', key) == Unchanged(x, y, key) && ChangeAt(x', y', key) == ChangeAt(x, y, key)
  }

  lemma {:induction false} FindingsRenamed(r: Renaming, q: Renaming, x: seq<Action>, x': seq<Action>, y: seq<Action>, y': seq<Action>)
    requires RenamedList(r, x, x') && Injective(r.stop) && RenamedList(q, y, y') && Injective(q.stop)
    ensures SameFindings(x, x', y, y')
  {
    KeysRename(r, x, x');
    KeysRename(q, y, y');
    forall key | key in Keys(x, y) ensures Unchanged(x', y', key) == Unchanged(x, y, key) && ChangeAt(x', y', key) == ChangeAt(x, y, key) {
      KeyRenamed(r, q, x, x', y, y', key);
    }
  }

  lemma {:induction false} SameFindingsSameChanges(x: seq<Action>, x': seq<Action>, y: seq<Action>, y': seq<Action>)
    requires SameFindings(x, x', y, y')
    ensures StopChanges(x', y') == StopChanges(x, y) && UnchangedKeys(x', y') == UnchangedKeys(x, y)
  {
  }

  lemma {:induction false} SameProtected(r: Renaming, x: seq<Action>, x': seq<Action>, y: seq<Action>, y': seq<Action>)
    requires SameFindings(x, x', y, y') && RenamedList(r, x, x')
    ensures ProtectedKeys(x', y') == ProtectedKeys(x, y)
  {
    KeysRename(r, x, x');
  }

  lemma {:induction false} KeyRenamed(r: Renaming, q: Renaming, x: seq<Action>, x': seq<Action>, y: seq<Action>, y': seq<Action>, key: Key)
    requires RenamedList(r, x, x') && Injective(r.stop) && RenamedList(q, y, y') && Injective(q.stop) && key in Keys(x, y)
    ensures Unchanged(x', y', key) == Unchanged(x, y, key) && ChangeAt(x', y', key) == ChangeAt(x, y, key)
  {
    KeysRename(r, x, x');
    KeysRename(q, y, y');
    if key in ByKey(x) { SignatureRenamed(r, x, x', ByKey(x)[key]); }
    if key in ByKey(y) { SignatureRenamed(q, y, y', ByKey(y)[key]); }
  }

  lemma {:induction false} RoutesRename(r: Renaming, routes: seq<Route>)
    requires Injective(r.route)
    ensures var x, y := RoutesById(routes), RoutesById(RenamedRoutes(r, routes));
            forall id :: (id in x <==> r.route(id) in y) && (id in x ==> y[r.route(id)] == RenamedRoute(r, x[id]))
    ensures var x, y := RoutesByVehicleId(routes), RoutesByVehicleId(RenamedRoutes(r, routes));
            x.Keys == y.Keys && forall v :: v in x ==> y[v] == RenamedRoute(r, x[v])
  {
    if routes != [] {
      RoutesRename(r, routes[..|routes| - 1]);
      var all := RenamedRoutes(r, routes);
      assert all[..|all| - 1] == RenamedRoutes(r, routes[..|routes| - 1]);
    }
  }

  lemma {:induction false} MembersRename(r: Renaming, members: seq<Member>)
    ensures var x, y := MembersById(members), MembersById(RenamedMembers(r, members));
            x.Keys == y.Keys && forall o :: o in x ==> y[o] == x[o].(routeId := RenamedOption(r.route, x[o].routeId))
  {
    if members != [] {
      MembersRename(r, members[..|members| - 1]);
      var all := RenamedMembers(r, members);
      assert all[..|all| - 1] == RenamedMembers(r, members[..|members| - 1]);
    }
  }

  /** Nothing an order view shows tells these apart. */
  ghost predicate LookAlike(x: OrderSide, y: OrderSide) {
    && y.onRoute == x.onRoute && y.vehicleId == x.vehicleId && y.reason == x.reason
    && EtaOf(y) == EtaOf(x) && Delivered(y) == Delivered(x)
  }

  lemma {:induction false} SameView(a: OrderSide, a': OrderSide, b: OrderSide, b': OrderSide, touched: bool)
    requires LookAlike(a, a') && LookAlike(b, b')
    ensures OrderViewOf(a', b', touched) == OrderViewOf(a, b, touched)
  {
  }

  lemma {:induction false} VehicleRenamed(r: Renaming, p: Snapshot, o: Id)
    requires Injective(r.route)
    ensures VehicleOfOrder(RenamedPlan(r, p), o) == VehicleOfOrder(p, o)
  {
    MembersRename(r, p.members);
    RoutesRename(r, p.routes);
  }

  lemma {:induction false} DeliveryRenamed(r: Renaming, p: Snapshot, o: Id)
    ensures var x, y := DeliveryOfOrder(p, o), DeliveryOfOrder(RenamedPlan(r, p), o);
            y == if x.Some? then Some(RenamedAction(r, x.value)) else None
  {
    ActionsRename(r, p.routes);
    KeysRename(r, Actions(p.routes), Actions(RenamedRoutes(r, p.routes)));
  }

  lemma {:induction false} OrderSideRenamed(r: Renaming, p: Snapshot, o: Id)
    requires Injective(r.route)
    ensures LookAlike(OrderSideOf(p, o), OrderSideOf(RenamedPlan(r, p), o))
  {
    MembersRename(r, p.members);
    VehicleRenamed(r, p, o);
    DeliveryRenamed(r, p, o);
  }

  lemma {:induction false} OrdersRenamed(r: Renaming, q: Renaming, base: Snapshot, candidate: Snapshot, touched: set<Id>)
    requires Injective(r.stop) && Injective(r.route) && Injective(q.stop) && Injective(q.route)
    ensures OrderViews(RenamedPlan(r, base), RenamedPlan(q, candidate), touched) == OrderViews(base, candidate, touched)
  {
    MembersRename(r, base.members);
    MembersRename(q, candidate.members);
    forall o | o in OrderIds(base, candidate)
      ensures OrderViewOf(OrderSideOf(RenamedPlan(r, base), o), OrderSideOf(RenamedPlan(q, candidate), o), o in touched)
              == OrderViewOf(OrderSideOf(base, o), OrderSideOf(candidate, o), o in touched)
    {
      OrderSideRenamed(r, base, o);
      OrderSideRenamed(q, candidate, o);
      SameView(OrderSideOf(base, o), OrderSideOf(RenamedPlan(r, base), o),
               OrderSideOf(candidate, o), OrderSideOf(RenamedPlan(q, candidate), o), o in touched);
    }
  }

  lemma {:induction false} RouteSignatureRenamed(r: Renaming, route: Route, x: seq<Action>, y: seq<Action>, n: nat)
    requires RenamedList(r, x, y) && Injective(r.stop) && n <= |route.stops|
    ensures |RenamedRoute(r, route).stops| == |route.stops|
    ensures RouteSignature(RenamedRoute(r, route), y, n) == RouteSignature(route, x, n)
  {
    StopsRename(r, route.stops, route.vehicleId);
    if 0 < n {
      RouteSignatureRenamed(r, route, x, y, n - 1);
      SignatureRenamed(r, x, y, Action(route.stops[n - 1], route.vehicleId));
    }
  }

  function RenamedSide(r: Renaming, side: Option<RouteSide>): Option<RouteSide> {
    if side.Some? then Some(RouteSide(r.route(side.value.routeId), side.value.stopCount)) else None
  }

  /** Only the reported route ids follow the renaming. */
  function RenamedRouteChanges(r: Renaming, q: Renaming, routes: map<Id, RouteChange>): map<Id, RouteChange> {
    map v | v in routes :: RouteChange(RenamedSide(r, routes[v].before), RenamedSide(q, routes[v].after))
  }

  lemma {:induction false} RouteSideRenamed(r: Renaming, routes: seq<Route>, v: Id)
    requires Injective(r.route) && Injective(r.stop)
    ensures RouteSideOf(RenamedRoutes(r, routes), v) == RenamedSide(r, RouteSideOf(routes, v))
    ensures v in RoutesByVehicleId(routes) ==>
              var x, y := RoutesByVehicleId(routes)[v], RoutesByVehicleId(RenamedRoutes(r, routes))[v];
              |y.stops| == |x.stops|
              && RouteSignature(y, Actions(RenamedRoutes(r, routes)), |y.stops|) == RouteSignature(x, Actions(routes), |x.stops|)
  {
    RoutesRename(r, routes);
    ActionsRename(r, routes);
    if v in RoutesByVehicleId(routes) {
      var x := RoutesByVehicleId(routes)[v];
      RouteSignatureRenamed(r, x, Actions(routes), Actions(RenamedRoutes(r, routes)), |x.stops|);
    }
  }

  ghost predicate RouteIsRenamed(r: Renaming, q: Renaming, base: Snapshot, candidate: Snapshot, v: Id) {
    && SameRoute(RenamedPlan(r, base), RenamedPlan(q, candidate), v) == SameRoute(base, candidate, v)
    && RouteSideOf(RenamedRoutes(r, base.routes), v) == RenamedSide(r, RouteSideOf(base.routes, v))
    && RouteSideOf(RenamedRoutes(q, candidate.routes), v) == RenamedSide(q, RouteSideOf(candidate.routes, v))
  }

  lemma {:induction false} OneRouteRenamed(r: Renaming, q: Renaming, base: Snapshot, candidate: Snapshot, v: Id)
    requires Injective(r.stop) && Injective(r.route) && Injective(q.stop) && Injective(q.route)
    ensures RouteIsRenamed(r, q, base, candidate, v)
  {
    RoutesRename(r, base.routes);
    RoutesRename(q, candidate.routes);
    RouteSideRenamed(r, base.routes, v);
    RouteSideRenamed(q, candidate.routes, v);
  }

  lemma {:induction false} RouteChangesRenamed(r: Renaming, q: Renaming, base: Snapshot, candidate: Snapshot)
    requires Injective(r.stop) && Injective(r.route) && Injective(q.stop) && Injective(q.route)
    ensures RouteChanges(RenamedPlan(r, base), RenamedPlan(q, candidate)) == RenamedRouteChanges(r, q, RouteChanges(base, candidate))
  {
    RoutesRename(r, base.routes);
    RoutesRename(q, candidate.routes);
    var changes, renamed := RouteChanges(base, candidate), RouteChanges(RenamedPlan(r, base), RenamedPlan(q, candidate));
    var expected := RenamedRouteChanges(r, q, changes);
    forall v ensures v in renamed <==> v in expected {
      OneRouteRenamed(r, q, base, candidate, v);
    }
    forall v | v in renamed ensures renamed[v] == expected[v] {
      OneRouteRenamed(r, q, base, candidate, v);
    }
    assert renamed.Keys == expected.Keys;
  }

  lemma {:induction false} FrozenRenamed(r: Renaming, q: Renaming, x: map<Key, Action>, x': map<Key, Action>, y: map<Key, Action>, y': map<Key, Action>, touched: set<Id>)
    requires x.Keys == x'.Keys && forall key :: key in x ==> x'[key] == RenamedAction(r, x[key])
    requires y.Keys == y'.Keys && forall key :: key in y ==> y'[key] == RenamedAction(q, y[key])
    ensures FrozenOrders(x', y', touched) == FrozenOrders(x, y, touched)
  {
    forall key | key in x ensures IsFrozen(x', y', touched, key) == IsFrozen(x, y, touched, key) {
    }
  }

  /** Giving the rows of either plan other ids changes nothing in the comparison, apart from the
      route ids it reports. */
  lemma {:induction false} RowIdsDoNotMatter(r: Renaming, q: Renaming, base: Snapshot, candidate: Snapshot)
    requires Injective(r.stop) && Injective(r.route) && Injective(q.stop) && Injective(q.route)
    ensures var x, y := DiffOf(base, candidate), DiffOf(RenamedPlan(r, base), RenamedPlan(q, candidate));
            y == x.(routes := RenamedRouteChanges(r, q, x.routes))
  {
    ActionsRename(r, base.routes);
    ActionsRename(q, candidate.routes);
    var x, x' := Actions(base.routes), Actions(RenamedRoutes(r, base.routes));
    var y, y' := Actions(candidate.routes), Actions(RenamedRoutes(q, candidate.routes));
    FindingsRenamed(r, q, x, x', y, y');
    SameFindingsSameChanges(x, x', y, y');
    SameProtected(r, x, x', y, y');
    var touched := TouchedOrders(StopChanges(x, y));
    OrdersRenamed(r, q, base, candidate, touched);
    RouteChangesRenamed(r, q, base, candidate);
    KeysRename(r, x, x');
    KeysRename(q, y, y');
    FrozenRenamed(r, q, ByKey(x), ByKey(x'), ByKey(y), ByKey(y'), touched);
    assert RenamedRouteChanges(r, q, RouteChanges(base, candidate)).Keys == RouteChanges(base, candidate).Keys;
  }
}

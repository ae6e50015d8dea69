/** What every state reachable by stop actions keeps. */
module ExecutionInvariants {
  import opened Ordering
  import opened Domain
  import opened Risk
  import opened Execution

  // ----- one route -----

  /** The length of the completed prefix. */
  function Frontier(stops: seq<Stop>): (f: nat)
    ensures f <= |stops|
  {
    if stops == [] || stops[0].status != Completed then 0 else 1 + Frontier(stops[1..])
  }

  /** Completed, with an arrival not after its departure. */
  ghost predicate Finished(stop: Stop) {
    && stop.status == Completed && stop.actualArrival.Some? && stop.actualDeparture.Some?
    && stop.actualArrival.value <= stop.actualDeparture.value
  }

  ghost predicate Untouched(stop: Stop) {
    stop.status == Planned && stop.actualArrival == None && stop.actualDeparture == None
  }

  ghost predicate UnderWay(stop: Stop) {
    (stop.status == Arrived || stop.status == InService) && stop.actualArrival.Some? && stop.actualDeparture == None
  }

  /** A recorded arrival is not before the departure from the previous stop. */
  ghost predicate InTime(stops: seq<Stop>, i: nat)
    requires i < |stops|
  {
    0 < i && stops[i].actualArrival.Some? ==>
      stops[i - 1].actualDeparture.Some? && stops[i - 1].actualDeparture.value <= stops[i].actualArrival.value
  }

  /** f stops are completed, at most one is under way, the rest is planned. */
  ghost predicate StopsOkAt(stops: seq<Stop>, f: nat) {
    && f <= |stops| && stops != []
    && (forall i :: 0 <= i < |stops| ==> stops[i].sequenceNo == i + 1)
    && (forall i :: 0 <= i < f ==> Finished(stops[i]))
    && (f < |stops| ==> Untouched(stops[f]) || UnderWay(stops[f]))
    && (forall i :: f < i < |stops| ==> Untouched(stops[i]))
    && (forall i :: 0 <= i < |stops| ==> InTime(stops, i))
  }

  /** The stored status and times of a route are functions of its stops. */
  ghost predicate RouteOkAt(route: Route, f: nat) {
    && StopsOkAt(route.stops, f)
    && route.status == (if f == |route.stops| then RouteCompleted
                        else if f == 0 && route.stops[0].status == Planned then RoutePlanned
                        else RouteActive)
    && route.actualStart == route.stops[0].actualArrival
    && route.actualEnd == if f == |route.stops| then route.stops[f - 1].actualDeparture else None
  }

  ghost predicate RouteOk(route: Route) {
    RouteOkAt(route, Frontier(route.stops))
  }

  lemma {:induction false} FrontierIs(stops: seq<Stop>, f: nat)
    requires f <= |stops|
    requires forall i :: 0 <= i < f ==> stops[i].status == Completed
    requires f < |stops| ==> stops[f].status != Completed
    ensures Frontier(stops) == f
  {
    if 0 < f { FrontierIs(stops[1..], f - 1); }
  }

  lemma {:induction false} RouteOkAtFrontier(route: Route, f: nat)
    requires RouteOkAt(route, f)
    ensures Frontier(route.stops) == f && RouteOk(route)
  {
    assert forall i :: 0 <= i < f ==> Finished(route.stops[i]);
    FrontierIs(route.stops, f);
  }

  /** On a numbered route the previous stop is the one before. */
  lemma {:induction false} PreviousIsNeighbour(stops: seq<Stop>, m: nat, k: nat)
    requires k <= m <= |stops|
    requires forall i :: 0 <= i < |stops| ==> stops[i].sequenceNo == i + 1
    ensures Previous(stops[..m], k + 1) == if k == 0 then None else Some(stops[k - 1])
  {
    if 0 < m && k < m {
      assert stops[..m][..m - 1] == stops[..m - 1];
      PreviousIsNeighbour(stops, m - 1, k);
    }
  }

  lemma {:induction false} EventTimeMeans(stops: seq<Stop>, k: nat, t: Instant, target: StopStatus)
    requires k < |stops| && EventTimeOk(stops, k, t, target)
    requires forall i :: 0 <= i < |stops| ==> stops[i].sequenceNo == i + 1
    ensures 0 < k && stops[k - 1].actualDeparture.Some? ==> stops[k - 1].actualDeparture.value <= t
    ensures target == Completed && stops[k].actualArrival.Some? ==> stops[k].actualArrival.value <= t
  {
    PreviousIsNeighbour(stops, |stops|, k);
    assert stops[..|stops|] == stops;
  }

  /** Moving the stop at the frontier keeps the shape, and a completion moves the frontier. */
  lemma {:induction false} MovedStopsOk(stops: seq<Stop>, f: nat, a: Action, t: Instant)
    requires StopsOkAt(stops, f) && f < |stops| && stops[f].status == Expected(a)
    requires EventTimeOk(stops, f, t, Target(a))
    ensures StopsOkAt(stops[f := MovedStop(stops[f], Target(a), t)], if a == Complete then f + 1 else f)
  {
    EventTimeMeans(stops, f, t, Target(a));
    var moved := stops[f := MovedStop(stops[f], Target(a), t)];
    if 0 < f { assert Finished(stops[f - 1]); }
    forall i | 0 <= i < |moved| ensures InTime(moved, i) {
      assert InTime(stops, i);
      if i == f + 1 { assert Untouched(stops[i]); }
    }
  }

  lemma {:induction false} MovedRouteOk(route: Route, f: nat, a: Action, t: Instant)
    requires RouteOkAt(route, f) && f < |route.stops| && route.stops[f].status == Expected(a)
    requires EventTimeOk(route.stops, f, t, Target(a))
    ensures RouteOkAt(MovedRoute(route, f, Target(a), t), if a == Complete then f + 1 else f)
  {
    MovedStopsOk(route.stops, f, a, t);
    var moved := MovedStops(route, f, Target(a), t);
    var g := if a == Complete then f + 1 else f;
    assert StopsOkAt(moved, g);
    assert AllCompleted(moved) <==> g == |moved| by {
      if g < |moved| { assert moved[g].status != Completed; }
      if g == |moved| { assert forall i :: 0 <= i < g ==> Finished(moved[i]); }
    }
    if 0 < f { assert Finished(route.stops[0]); }
  }

  /** Recorded times never go back along a route, so a finished route ends after it starts. */
  lemma {:induction false} TimesRunForward(stops: seq<Stop>, f: nat, i: nat, j: nat)
    requires StopsOkAt(stops, f) && i <= j < f
    ensures stops[i].actualArrival.value <= stops[j].actualDeparture.value
    ensures i < j ==> stops[i].actualDeparture.value <= stops[j].actualArrival.value
    decreases j
  {
    assert Finished(stops[j]) && Finished(stops[i]);
    if i < j {
      assert Finished(stops[j - 1]) && InTime(stops, j);
      TimesRunForward(stops, f, i, j - 1);
    }
  }

  // ----- one step of the world -----

  lemma {:induction false} RecalculatedOnlyRisk(threshold: nat, stops: seq<Stop>, delay: nat, orders: map<Id, Order>, n: nat, o: Id)
    requires n <= |stops| && o in orders
    ensures o in Recalculated(threshold, stops, delay, orders, n)
    ensures var after := Recalculated(threshold, stops, delay, orders, n)[o]; after == orders[o].(risk := after.risk)
  {
    if 0 < n { RecalculatedOnlyRisk(threshold, stops, delay, orders, n - 1, o); }
  }

  /** What an enabled action does to routes and orders. */
  ghost predicate RoutesMoved(w: World, after: World, p: Place, target: StopStatus, t: Instant) {
    && Ready(w, p)
    && after.routes == w.routes[p.routeId := MovedRoute(w.routes[p.routeId], p.at, target, t)]
    && after.plans == w.plans && after.index == w.index
  }

  ghost predicate OrdersMoved(w: World, after: World, p: Place, target: StopStatus) {
    && Ready(w, p)
    && after.orders.Keys == w.orders.Keys
    && forall o {:trigger after.orders[o]} :: o in after.orders ==> OrderMoved(w, after, p, target, o)
  }

  ghost predicate OrderMoved(w: World, after: World, p: Place, target: StopStatus, o: Id)
    requires Ready(w, p) && o in after.orders && after.orders.Keys == w.orders.Keys
  {
    var stop := w.routes[p.routeId].stops[p.at];
    var moved := if o == stop.orderId then Advanced(w.orders[o], stop.kind, target) else w.orders[o];
    after.orders[o] == moved.(risk := after.orders[o].risk)
  }

  lemma {:induction false} EffectOnRoutes(threshold: nat, w: World, p: Place, target: StopStatus, t: Instant)
    requires Ready(w, p)
    ensures RoutesMoved(w, Effect(threshold, w, p, target, t), p, target, t)
  {
  }

  lemma {:induction false} EffectOnOrders(threshold: nat, w: World, p: Place, target: StopStatus, t: Instant)
    requires Ready(w, p)
    ensures OrdersMoved(w, Effect(threshold, w, p, target, t), p, target)
  {
    var started := StopStarted(w, p, target, t);
    var stops := started.routes[p.routeId].stops;
    var stop := stops[p.at];
    var advanced := w.orders[stop.orderId := Advanced(w.orders[stop.orderId], stop.kind, target)];
    var after := Effect(threshold, w, p, target, t);
    assert after.orders == Recalculated(threshold, stops, RouteDelay(stops, t), advanced, |stops|);
    RecalculatedKeys(threshold, stops, RouteDelay(stops, t), advanced, |stops|);
    forall o | o in after.orders ensures OrderMoved(w, after, p, target, o) {
      RecalculatedOnlyRisk(threshold, stops, RouteDelay(stops, t), advanced, |stops|, o);
    }
  }

  /** Rows addressed by stop id are the rows with that id. */
  ghost predicate IndexOk(w: World) {
    forall s :: s in w.index ==> OnKnownRoute(w, s) && w.routes[w.index[s].routeId].stops[w.index[s].at].id == s
  }

  ghost predicate RoutesOk(w: World) {
    forall r :: r in w.routes ==> RouteOk(w.routes[r])
  }

  /** The rank a stop entitles its order to. */
  function Entitled(kind: StopKind, status: StopStatus): nat {
    match kind
    case Pickup => if status == Planned then 0 else if status == Completed then 2 else 1
    case Delivery => if status == Planned then 0 else if status == Completed then 4 else 3
    case Handover => if status == Planned then 0 else 3
  }

  ghost predicate HasStop(w: World, r: Id, k: int, o: Id) {
    r in w.routes && 0 <= k < |w.routes[r].stops| && w.routes[r].stops[k].orderId == o
  }

  function EntitledBy(w: World, r: Id, k: int): nat
    requires r in w.routes && 0 <= k < |w.routes[r].stops|
  {
    Entitled(w.routes[r].stops[k].kind, w.routes[r].stops[k].status)
  }

  /** The stored status of an order is the highest of what it started with and what its stops
      entitle it to. */
  ghost predicate RankOk(w: World, base: map<Id, nat>, o: Id) {
    && o in base && o in w.orders && base[o] <= Rank(w.orders[o].status)
    && (forall r, k :: HasStop(w, r, k, o) ==> EntitledBy(w, r, k) <= Rank(w.orders[o].status))
    && (Rank(w.orders[o].status) == base[o]
        || exists r, k :: HasStop(w, r, k, o) && EntitledBy(w, r, k) == Rank(w.orders[o].status))
  }

  ghost predicate WorldOk(w: World, base: map<Id, nat>) {
    && IndexOk(w) && RoutesOk(w)
    && forall o :: o in w.orders ==> RankOk(w, base, o)
  }

  lemma {:induction false} OnlyTheFrontierMoves(stops: seq<Stop>, f: nat, k: nat, a: Action)
    requires StopsOkAt(stops, f) && k < |stops|
    requires stops[k].status == Expected(a) && SequenceOk(stops, k)
    ensures k == f
  {
    assert f == |stops| || stops[f].status != Completed;
  }

  /** An action can only concern the first unfinished stop of its route. */
  lemma {:induction false} TakenAtTheFrontier(w: World, stopId: Id, a: Action, t: Instant)
    requires IndexOk(w) && RoutesOk(w) && Takes(w, stopId, a, t)
    ensures var p := w.index[stopId]; var route := w.routes[p.routeId];
            && Ready(w, p) && p.at == Frontier(route.stops)
            && route.stops[p.at].status == Expected(a) && EventTimeOk(route.stops, p.at, t, Target(a))
  {
    var p := w.index[stopId];
    var route := w.routes[p.routeId];
    assert RouteOk(route);
    OnlyTheFrontierMoves(route.stops, Frontier(route.stops), p.at, a);
  }

  lemma {:induction false} AdvancedRank(order: Order, kind: StopKind, a: Action)
    requires Entitled(kind, Expected(a)) <= Rank(order.status)
    ensures Rank(Advanced(order, kind, Target(a)).status) == Max(Rank(order.status), Entitled(kind, Target(a)))
    ensures Entitled(kind, Expected(a)) <= Entitled(kind, Target(a))
  {
  }

  lemma {:induction false} StepKeepsStops(w: World, after: World, p: Place, target: StopStatus, t: Instant, r: Id, k: int, o: Id)
    requires RoutesMoved(w, after, p, target, t)
    ensures HasStop(after, r, k, o) <==> HasStop(w, r, k, o)
    ensures HasStop(after, r, k, o) ==>
              EntitledBy(after, r, k) ==
                if r == p.routeId && k == p.at then Entitled(w.routes[r].stops[k].kind, target) else EntitledBy(w, r, k)
  {
  }

  lemma {:induction false} StepKeepsRank(w: World, after: World, base: map<Id, nat>, p: Place, a: Action, t: Instant, o: Id)
    requires RoutesMoved(w, after, p, Target(a), t) && OrdersMoved(w, after, p, Target(a))
    requires w.routes[p.routeId].stops[p.at].status == Expected(a)
    requires o in w.orders && RankOk(w, base, o)
    ensures RankOk(after, base, o)
  {
    var stop := w.routes[p.routeId].stops[p.at];
    assert HasStop(w, p.routeId, p.at, stop.orderId);
    assert OrderMoved(w, after, p, Target(a), o);
    forall r, k | HasStop(after, r, k, o) ensures EntitledBy(after, r, k) <= Rank(after.orders[o].status) {
      StepKeepsStops(w, after, p, Target(a), t, r, k, o);
      if o == stop.orderId { AdvancedRank(w.orders[o], stop.kind, a); }
    }
    if o == stop.orderId {
      AdvancedRank(w.orders[o], stop.kind, a);
      StepKeepsStops(w, after, p, Target(a), t, p.routeId, p.at, o);
      assert EntitledBy(after, p.routeId, p.at) == Entitled(stop.kind, Target(a));
    }
    var now := Rank(after.orders[o].status);
    if now != base[o] && now == Rank(w.orders[o].status) {
      var r, k :| HasStop(w, r, k, o) && EntitledBy(w, r, k) == now;
      StepKeepsStops(w, after, p, Target(a), t, r, k, o);
    }
  }

  lemma {:induction false} StepKeepsRoutes(w: World, after: World, p: Place, a: Action, t: Instant)
    requires RoutesMoved(w, after, p, Target(a), t) && RoutesOk(w)
    requires p.at == Frontier(w.routes[p.routeId].stops) && w.routes[p.routeId].stops[p.at].status == Expected(a)
    requires EventTimeOk(w.routes[p.routeId].stops, p.at, t, Target(a))
    ensures RoutesOk(after)
  {
    assert RouteOk(w.routes[p.routeId]);
    MovedRouteOk(w.routes[p.routeId], p.at, a, t);
    RouteOkAtFrontier(after.routes[p.routeId], if a == Complete then p.at + 1 else p.at);
  }

  lemma {:induction false} StepKeepsIndex(w: World, after: World, p: Place, target: StopStatus, t: Instant)
    requires RoutesMoved(w, after, p, target, t) && IndexOk(w)
    ensures IndexOk(after)
  {
    forall s | s in after.index
      ensures OnKnownRoute(after, s) && after.routes[after.index[s].routeId].stops[after.index[s].at].id == s
    {
      assert OnKnownRoute(w, s);
    }
  }

  lemma {:induction false} StepKeepsWorldOk(threshold: nat, w: World, base: map<Id, nat>, stopId: Id, a: Action, t: Instant)
    requires WorldOk(w, base)
    ensures WorldOk(Step(threshold, w, stopId, a, t), base)
  {
    if Takes(w, stopId, a, t) {
      TakenAtTheFrontier(w, stopId, a, t);
      var p := w.index[stopId];
      var after := Effect(threshold, w, p, Target(a), t);
      EffectOnRoutes(threshold, w, p, Target(a), t);
      EffectOnOrders(threshold, w, p, Target(a), t);
      StepKeepsRoutes(w, after, p, a, t);
      StepKeepsIndex(w, after, p, Target(a), t);
      forall o | o in after.orders ensures RankOk(after, base, o) {
        StepKeepsRank(w, after, base, p, a, t, o);
      }
    }
  }

  // ----- runs -----

  datatype Call = Call(stopId: Id, action: Action, at: Instant)

  function Run(threshold: nat, w: World, calls: seq<Call>): World {
    if calls == [] then w
    else
      var last := calls[|calls| - 1];
      Step(threshold, Run(threshold, w, calls[..|calls| - 1]), last.stopId, last.action, last.at)
  }

  /** Over any sequence of calls, whatever their order, times and repetitions: every route is a
      completed block, at most one stop under way and planned stops, with stored status and
      times to match, and every order has the status its stops entitle it to. */
  lemma {:induction false} RunKeepsWorldOk(threshold: nat, w: World, base: map<Id, nat>, calls: seq<Call>)
    requires WorldOk(w, base)
    ensures WorldOk(Run(threshold, w, calls), base)
    decreases |calls|
  {
    if calls != [] {
      RunKeepsWorldOk(threshold, w, base, calls[..|calls| - 1]);
      var last := calls[|calls| - 1];
      StepKeepsWorldOk(threshold, Run(threshold, w, calls[..|calls| - 1]), base, last.stopId, last.action, last.at);
    }
  }

  // ----- history -----

  /** The planned part of a stop, which execution never touches. */
  ghost predicate SameStop(x: Stop, y: Stop) {
    y == x.(status := y.status, actualArrival := y.actualArrival, actualDeparture := y.actualDeparture)
  }

  /** A stop only ever gains facts: a recorded time stays, a completed stop is final. */
  ghost predicate StopExtends(x: Stop, y: Stop) {
    && SameStop(x, y)
    && (x.actualArrival.Some? ==> y.actualArrival == x.actualArrival)
    && (x.status == Completed ==> y == x)
  }

  ghost predicate StopsExtend(x: seq<Stop>, y: seq<Stop>) {
    |x| == |y| && forall k :: 0 <= k < |x| ==> StopExtends(x[k], y[k])
  }

  ghost predicate RouteExtends(x: Route, y: Route) {
    && y == x.(status := y.status, actualStart := y.actualStart, actualEnd := y.actualEnd, stops := y.stops)
    && StopsExtend(x.stops, y.stops)
  }

  ghost predicate OrderExtends(x: Order, y: Order) {
    y == x.(status := y.status, risk := y.risk) && Rank(x.status) <= Rank(y.status)
  }

  ghost predicate Extends(x: World, y: World) {
    && x.plans == y.plans && x.index == y.index
    && x.routes.Keys == y.routes.Keys && (forall r :: r in x.routes ==> RouteExtends(x.routes[r], y.routes[r]))
    && x.orders.Keys == y.orders.Keys && (forall o :: o in x.orders ==> OrderExtends(x.orders[o], y.orders[o]))
  }

  lemma {:induction false} StopsExtendTransitively(x: seq<Stop>, y: seq<Stop>, z: seq<Stop>)
    requires StopsExtend(x, y) && StopsExtend(y, z)
    ensures StopsExtend(x, z)
  {
    forall k | 0 <= k < |x| ensures StopExtends(x[k], z[k]) {
      assert StopExtends(x[k], y[k]) && StopExtends(y[k], z[k]);
    }
  }

  lemma {:induction false} ExtendsTransitively(x: World, y: World, z: World)
    requires Extends(x, y) && Extends(y, z)
    ensures Extends(x, z)
  {
    forall r | r in x.routes ensures RouteExtends(x.routes[r], z.routes[r]) {
      assert RouteExtends(x.routes[r], y.routes[r]) && RouteExtends(y.routes[r], z.routes[r]);
      StopsExtendTransitively(x.routes[r].stops, y.routes[r].stops, z.routes[r].stops);
    }
    forall o | o in x.orders ensures OrderExtends(x.orders[o], z.orders[o]) {
      assert OrderExtends(x.orders[o], y.orders[o]) && OrderExtends(y.orders[o], z.orders[o]);
    }
  }

  lemma {:induction false} MovedStopExtends(stops: seq<Stop>, f: nat, a: Action, t: Instant)
    requires StopsOkAt(stops, f) && f < |stops| && stops[f].status == Expected(a)
    ensures StopsExtend(stops, stops[f := MovedStop(stops[f], Target(a), t)])
  {
  }

  lemma {:induction false} StepExtends(threshold: nat, w: World, stopId: Id, a: Action, t: Instant)
    requires IndexOk(w) && RoutesOk(w)
    ensures Extends(w, Step(threshold, w, stopId, a, t))
  {
    var after := Step(threshold, w, stopId, a, t);
    if Takes(w, stopId, a, t) {
      TakenAtTheFrontier(w, stopId, a, t);
      var p := w.index[stopId];
      EffectOnRoutes(threshold, w, p, Target(a), t);
      EffectOnOrders(threshold, w, p, Target(a), t);
      MovesExtend(w, after, p, a, t);
    }
  }

  lemma {:induction false} MovedRoutesExtend(w: World, after: World, p: Place, a: Action, t: Instant, r: Id)
    requires RoutesMoved(w, after, p, Target(a), t) && RoutesOk(w) && r in w.routes
    requires p.at == Frontier(w.routes[p.routeId].stops) && w.routes[p.routeId].stops[p.at].status == Expected(a)
    ensures RouteExtends(w.routes[r], after.routes[r])
  {
    var route := w.routes[p.routeId];
    assert RouteOk(route);
    MovedStopExtends(route.stops, p.at, a, t);
    assert MovedRoute(route, p.at, Target(a), t).stops == MovedStops(route, p.at, Target(a), t);
    assert forall k :: 0 <= k < |w.routes[r].stops| ==> StopExtends(w.routes[r].stops[k], w.routes[r].stops[k]);
  }

  lemma {:induction false} MovesExtend(w: World, after: World, p: Place, a: Action, t: Instant)
    requires RoutesMoved(w, after, p, Target(a), t) && OrdersMoved(w, after, p, Target(a)) && RoutesOk(w)
    requires p.at == Frontier(w.routes[p.routeId].stops) && w.routes[p.routeId].stops[p.at].status == Expected(a)
    ensures Extends(w, after)
  {
    forall r | r in w.routes ensures RouteExtends(w.routes[r], after.routes[r]) {
      MovedRoutesExtend(w, after, p, a, t, r);
    }
    MovedOrdersExtend(w, after, p, Target(a));
  }

  lemma {:induction false} MovedOrdersExtend(w: World, after: World, p: Place, target: StopStatus)
    requires OrdersMoved(w, after, p, target)
    ensures forall o :: o in w.orders ==> OrderExtends(w.orders[o], after.orders[o])
  {
    forall o | o in w.orders ensures OrderExtends(w.orders[o], after.orders[o]) {
      assert OrderMoved(w, after, p, target, o);
    }
  }

  /** Execution never rewrites history: over any calls, completed stops, recorded times and
      plan data stay as they are and no order falls back. */
  lemma {:induction false} HistoryIsKept(threshold: nat, w: World, base: map<Id, nat>, calls: seq<Call>)
    requires WorldOk(w, base)
    ensures Extends(w, Run(threshold, w, calls))
    decreases |calls|
  {
    if calls != [] {
      var front, last := calls[..|calls| - 1], calls[|calls| - 1];
      HistoryIsKept(threshold, w, base, front);
      RunKeepsWorldOk(threshold, w, base, front);
      var before := Run(threshold, w, front);
      StepExtends(threshold, before, last.stopId, last.action, last.at);
      ExtendsTransitively(w, before, Run(threshold, w, calls));
    }
  }

  /** Repeating an action that went through, at whatever time, succeeds and changes nothing. */
  lemma {:induction false} RepeatChangesNothing(threshold: nat, w: World, stopId: Id, a: Action, t: Instant, again: Instant)
    requires Verdict(w, stopId, a, t) == Done
    ensures var after := Step(threshold, w, stopId, a, t);
            Verdict(after, stopId, a, again) == Done && Step(threshold, after, stopId, a, again) == after
  {
    if Takes(w, stopId, a, t) {
      var p := w.index[stopId];
      EffectOnRoutes(threshold, w, p, Target(a), t);
      EffectOnOrders(threshold, w, p, Target(a), t);
      KeepsEquipment(threshold, w, p, Target(a), t);
      RepeatIsDone(w, Step(threshold, w, stopId, a, t), stopId, a, t, again);
    }
  }

  lemma {:induction false} KeepsEquipment(threshold: nat, w: World, p: Place, target: StopStatus, t: Instant)
    requires Ready(w, p)
    ensures var after := Effect(threshold, w, p, target, t);
            && w.vehicles.Keys == after.vehicles.Keys && w.drivers.Keys == after.drivers.Keys
            && w.assignments.Keys == after.assignments.Keys
  {
  }

  lemma {:induction false} RepeatIsDone(w: World, after: World, stopId: Id, a: Action, t: Instant, again: Instant)
    requires Takes(w, stopId, a, t)
    requires RoutesMoved(w, after, w.index[stopId], Target(a), t) && OrdersMoved(w, after, w.index[stopId], Target(a))
    requires w.vehicles.Keys == after.vehicles.Keys && w.drivers.Keys == after.drivers.Keys
    requires w.assignments.Keys == after.assignments.Keys
    ensures Verdict(after, stopId, a, again) == Done && !Takes(after, stopId, a, again)
  {
    var p := w.index[stopId];
    var before, route := w.routes[p.routeId], after.routes[p.routeId];
    assert route.stops == MovedStops(before, p.at, Target(a), t);
    assert forall i :: 0 <= i < |route.stops| ==> route.stops[i].orderId == before.stops[i].orderId;
    assert Equipped(after, stopId);
  }

  // ----- from a freshly planned world -----

  ghost predicate FreshRoute(route: Route) {
    && route.status == RoutePlanned && route.actualStart == None && route.actualEnd == None && route.stops != []
    && forall i :: 0 <= i < |route.stops| ==> route.stops[i].sequenceNo == i + 1 && Untouched(route.stops[i])
  }

  /** Every stop planned, every order waiting. */
  ghost predicate Fresh(w: World) {
    && IndexOk(w)
    && (forall r :: r in w.routes ==> FreshRoute(w.routes[r]))
    && (forall o :: o in w.orders ==> w.orders[o].status == OrderPlanned)
  }

  function StartRanks(w: World): map<Id, nat> {
    map o | o in w.orders :: Rank(w.orders[o].status)
  }

  lemma {:induction false} FreshIsOk(w: World)
    requires Fresh(w)
    ensures WorldOk(w, StartRanks(w))
  {
    forall r | r in w.routes ensures RouteOk(w.routes[r]) {
      assert FreshRoute(w.routes[r]);
      assert forall i :: 0 <= i < |w.routes[r].stops| ==> InTime(w.routes[r].stops, i);
      RouteOkAtFrontier(w.routes[r], 0);
    }
    forall o | o in w.orders ensures RankOk(w, StartRanks(w), o) {
      forall r, k | HasStop(w, r, k, o) ensures EntitledBy(w, r, k) == 0 {
        assert FreshRoute(w.routes[r]);
        assert Untouched(w.routes[r].stops[k]);
      }
    }
  }

  /** The order is served by one pickup and, later on the same route, one delivery. */
  ghost predicate ServedAt(w: World, r: Id, p: int, d: int, o: Id) {
    && r in w.routes && 0 <= p < d < |w.routes[r].stops|
    && HasStop(w, r, p, o) && w.routes[r].stops[p].kind == Pickup
    && HasStop(w, r, d, o) && w.routes[r].stops[d].kind == Delivery
    && forall q, k :: HasStop(w, q, k, o) ==> q == r && (k == p || k == d)
  }

  /** The status of an order as a function of its two stops. */
  function StatusFrom(pickup: StopStatus, delivery: StopStatus): OrderStatus {
    match delivery
    case Completed => OrderCompleted
    case Arrived => Delivering
    case InService => Delivering
    case Planned =>
      match pickup
      case Planned => OrderPlanned
      case Completed => PickedUp
      case _ => PickupInProgress
  }

  /** Where the frontier lies, by the statuses of two stops. */
  lemma {:induction false} FrontierBetween(stops: seq<Stop>, f: nat, p: int, d: int)
    requires StopsOkAt(stops, f) && 0 <= p < d < |stops|
    ensures stops[p].status == Completed <==> p < f
    ensures stops[d].status == Completed <==> d < f
    ensures stops[d].status != Planned ==> stops[p].status == Completed
  {
    assert p < f ==> Finished(stops[p]);
    assert d < f ==> Finished(stops[d]);
    assert f < d ==> Untouched(stops[d]);
    assert f < p ==> Untouched(stops[p]);
  }

  lemma {:induction false} StatusIsDerived(w: World, base: map<Id, nat>, r: Id, p: int, d: int, o: Id)
    requires WorldOk(w, base) && o in w.orders && o in base && base[o] == 0 && ServedAt(w, r, p, d, o)
    ensures w.orders[o].status == StatusFrom(w.routes[r].stops[p].status, w.routes[r].stops[d].status)
    ensures w.orders[o].status in {PickedUp, Delivering} <==> p < Frontier(w.routes[r].stops) <= d
  {
    assert RankOk(w, base, o);
    assert RouteOk(w.routes[r]);
    var stops := w.routes[r].stops;
    FrontierBetween(stops, Frontier(stops), p, d);
    assert EntitledBy(w, r, p) <= Rank(w.orders[o].status) && EntitledBy(w, r, d) <= Rank(w.orders[o].status);
    assert Rank(w.orders[o].status) == Max(EntitledBy(w, r, p), EntitledBy(w, r, d));
  }

  lemma {:induction false} ExtendsKeepsService(w: World, after: World, r: Id, p: int, d: int, o: Id)
    requires Extends(w, after) && ServedAt(w, r, p, d, o)
    ensures ServedAt(after, r, p, d, o)
  {
    forall q, k | q in w.routes && 0 <= k < |w.routes[q].stops| ensures HasStop(after, q, k, o) == HasStop(w, q, k, o) {
      assert RouteExtends(w.routes[q], after.routes[q]);
      assert StopExtends(w.routes[q].stops[k], after.routes[q].stops[k]);
    }
    forall q, k | HasStop(after, q, k, o) ensures q == r && (k == p || k == d) {
      assert RouteExtends(w.routes[q], after.routes[q]);
    }
    assert RouteExtends(w.routes[r], after.routes[r]);
    assert StopExtends(w.routes[r].stops[p], after.routes[r].stops[p]);
    assert StopExtends(w.routes[r].stops[d], after.routes[r].stops[d]);
  }

  /** In every state reachable from a fresh plan the stored status of an order is the function
      `StatusFrom` of its pickup and its delivery. */
  lemma {:induction false} OrderStatusFollowsStops(threshold: nat, w: World, calls: seq<Call>, r: Id, p: int, d: int, o: Id)
    requires Fresh(w) && o in w.orders && ServedAt(w, r, p, d, o)
    ensures var after := Run(threshold, w, calls);
            && o in after.orders && ServedAt(after, r, p, d, o)
            && after.orders[o].status == StatusFrom(after.routes[r].stops[p].status, after.routes[r].stops[d].status)
            && (after.orders[o].status in {PickedUp, Delivering} <==> p < Frontier(after.routes[r].stops) <= d)
  {
    FreshIsOk(w);
    RunKeepsWorldOk(threshold, w, StartRanks(w), calls);
    HistoryIsKept(threshold, w, StartRanks(w), calls);
    var after := Run(threshold, w, calls);
    ExtendsKeepsService(w, after, r, p, d, o);
    StatusIsDerived(after, StartRanks(w), r, p, d, o);
  }

  /** In every state reachable from a fresh plan a route is COMPLETED exactly when all its
      stops are, and then it does not end before it starts. */
  lemma {:induction false} RoutesAreWellFormed(threshold: nat, w: World, calls: seq<Call>, r: Id)
    requires Fresh(w) && r in w.routes
    ensures r in Run(threshold, w, calls).routes
    ensures var route := Run(threshold, w, calls).routes[r]; var f := Frontier(route.stops);
            && RouteOkAt(route, f)
            && (route.status == RouteCompleted <==> AllCompleted(route.stops))
            && (route.status == RouteCompleted ==>
                 route.actualStart.Some? && route.actualEnd.Some? && route.actualStart.value <= route.actualEnd.value)
  {
    FreshIsOk(w);
    RunKeepsWorldOk(threshold, w, StartRanks(w), calls);
    HistoryIsKept(threshold, w, StartRanks(w), calls);
    var after := Run(threshold, w, calls);
    assert RouteExtends(w.routes[r], after.routes[r]);
    assert RouteOk(after.routes[r]);
    RouteOkMeans(after.routes[r]);
  }

  lemma {:induction false} RouteOkMeans(route: Route)
    requires RouteOk(route)
    ensures route.status == RouteCompleted <==> AllCompleted(route.stops)
    ensures route.status == RouteCompleted ==>
              route.actualStart.Some? && route.actualEnd.Some? && route.actualStart.value <= route.actualEnd.value
  {
    var f := Frontier(route.stops);
    if f == |route.stops| {
      assert forall i :: 0 <= i < f ==> Finished(route.stops[i]);
      TimesRunForward(route.stops, f, 0, f - 1);
      assert Finished(route.stops[f - 1]) && Finished(route.stops[0]);
    } else {
      assert route.stops[f].status != Completed;
    }
  }
}

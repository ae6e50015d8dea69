/** A plan with the orders it serves: how stored statuses, stops and memberships hang together, whatever
    mixture of execution and recovery led there. */
module PlanLedger {
  import opened Ordering
  import opened Domain
  import opened Optimization
  import opened Execution
  import opened ExecutionInvariants
  import opened CandidateLaws
  import opened Comparison
  import opened RecoveryHistory
  import opened CandidateActions
  import opened ExecutedPlans

  /** The routes of a plan, the status of its orders, and the route of each membership. */
  datatype Ledger = Ledger(routes: seq<Route>, status: map<Id, OrderStatus>, routeOf: map<Id, Option<Id>>)

  ghost predicate StopAt(l: Ledger, r: int, k: int) {
    0 <= r < |l.routes| && 0 <= k < |l.routes[r].stops|
  }

  function OrderOf(l: Ledger, r: int, k: int): Id
    requires StopAt(l, r, k)
  {
    l.routes[r].stops[k].orderId
  }

  /** The order is known. */
  ghost predicate Booked(l: Ledger, r: int, k: int)
    requires StopAt(l, r, k)
  {
    OrderOf(l, r, k) in l.status && OrderOf(l, r, k) in l.routeOf
  }

  /** An order is completed exactly when its delivery is, a done pickup shows, and an open stop belongs to an open
      order, on the route of its membership. */
  ghost predicate Agrees(l: Ledger, r: int, k: int)
    requires StopAt(l, r, k) && Booked(l, r, k)
  {
    var stop, status := l.routes[r].stops[k], l.status[OrderOf(l, r, k)];
    && (stop.kind == Delivery ==> (stop.status == Completed <==> status == OrderCompleted))
    && (stop.kind == Pickup && stop.status == Completed ==> 2 <= Rank(status))
    && (stop.status != Completed ==> status != OrderCompleted && l.routeOf[OrderOf(l, r, k)] == Some(l.routes[r].id))
  }

  ghost predicate Delivered(l: Ledger, o: Id) {
    exists r, k :: StopAt(l, r, k) && OrderOf(l, r, k) == o && l.routes[r].stops[k].kind == Delivery
  }

  ghost predicate Served(l: Ledger, o: Id) {
    exists r, k :: StopAt(l, r, k) && OrderOf(l, r, k) == o
  }

  ghost predicate OnRoute(l: Ledger, o: Id) {
    o in l.routeOf && l.routeOf[o].Some? && exists r :: 0 <= r < |l.routes| && l.routes[r].id == l.routeOf[o].value
  }

  /** Goods on board have a stop and a route; a completed order has its delivery. */
  ghost predicate Tracked(l: Ledger, o: Id)
    requires o in l.status
  {
    && (l.status[o] in {PickedUp, Delivering} ==> Served(l, o) && OnRoute(l, o))
    && (l.status[o] == OrderCompleted ==> Delivered(l, o))
  }

  /** Nothing of the order comes behind its delivery. */
  ghost predicate DeliveryEnds(stops: seq<Stop>) {
    forall k, j :: 0 <= k < j < |stops| && stops[k].kind == Delivery ==> stops[j].orderId != stops[k].orderId
  }

  ghost predicate DistinctRoutes(routes: seq<Route>) {
    forall i, j :: 0 <= i < |routes| && 0 <= j < |routes| && routes[i].id == routes[j].id ==> i == j
  }

  ghost predicate AllAgree(l: Ledger) {
    forall r, k :: StopAt(l, r, k) ==> Booked(l, r, k) && Agrees(l, r, k)
  }

  ghost predicate Balanced(l: Ledger) {
    && AllAgree(l) && (forall o :: o in l.status ==> Tracked(l, o))
    && (forall r :: 0 <= r < |l.routes| ==> DeliveryEnds(l.routes[r].stops)) && DistinctRoutes(l.routes)
  }

  // ----- one stop action -----

  /** Stop k of route i has moved by the action. */
  ghost predicate RoutesStep(x: seq<Route>, y: seq<Route>, i: int, k: int, a: Execution.Action) {
    && 0 <= i < |x| && |y| == |x| && 0 <= k < |x[i].stops| && RouteKept(x[i], y[i])
    && (forall r :: 0 <= r < |x| && r != i ==> y[r] == x[r])
    && (forall j :: 0 <= j < |x[i].stops| && j != k ==> y[i].stops[j] == x[i].stops[j])
    && x[i].stops[k].status == Expected(a) && y[i].stops[k].status == Execution.Target(a) && SequenceOk(x[i].stops, k)
  }

  /** Its order has moved with it. */
  ghost predicate StatusStep(x: map<Id, OrderStatus>, y: map<Id, OrderStatus>, stop: Stop, a: Execution.Action) {
    && y.Keys == x.Keys && stop.orderId in x
    && forall o :: o in x ==> y[o] == if o == stop.orderId then Raised(x[o], stop.kind, Execution.Target(a)) else x[o]
  }

  ghost predicate Moved(l: Ledger, m: Ledger, i: int, k: int, a: Execution.Action) {
    RoutesStep(l.routes, m.routes, i, k, a) && StatusStep(l.status, m.status, l.routes[i].stops[k], a) && m.routeOf == l.routeOf
  }

  function Raised(status: OrderStatus, kind: StopKind, target: StopStatus): OrderStatus {
    var desired := Desired(kind, target);
    if desired.Some? && Rank(desired.value) > Rank(status) then desired.value else status
  }

  lemma {:induction false} StopsStay(l: Ledger, m: Ledger, i: int, k: int, a: Execution.Action, r: int, j: int)
    requires Moved(l, m, i, k, a)
    ensures StopAt(m, r, j) <==> StopAt(l, r, j)
    ensures StopAt(l, r, j) ==> OrderOf(m, r, j) == OrderOf(l, r, j) && m.routes[r].stops[j].kind == l.routes[r].stops[j].kind
    ensures 0 <= r < |l.routes| ==> m.routes[r].id == l.routes[r].id && |m.routes[r].stops| == |l.routes[r].stops|
  {
    if StopAt(l, r, j) && r == i { assert SameStop(l.routes[i].stops[j], m.routes[i].stops[j]); }
  }

  /** An open order's other open stops come before its delivery on the same route. */
  lemma {:induction false} OthersAreDone(l: Ledger, i: int, k: int, r: int, j: int)
    requires Balanced(l) && StopAt(l, i, k) && StopAt(l, r, j) && OrderOf(l, r, j) == OrderOf(l, i, k) && (r != i || j != k)
    requires l.routes[i].stops[k].kind == Delivery && l.routes[i].stops[k].status != Completed && SequenceOk(l.routes[i].stops, k)
    requires forall q :: 0 <= q < |l.routes[i].stops| ==> l.routes[i].stops[q].sequenceNo == q + 1
    ensures l.routes[r].stops[j].status == Completed
  {
    assert Booked(l, i, k) && Agrees(l, i, k) && Booked(l, r, j) && Agrees(l, r, j);
  }

  lemma {:induction false} OneDelivery(l: Ledger, i: int, k: int, r: int, j: int)
    requires DistinctKeys(Actions(l.routes)) && StopAt(l, i, k) && StopAt(l, r, j) && OrderOf(l, r, j) == OrderOf(l, i, k)
    requires l.routes[i].stops[k].kind == Delivery && l.routes[r].stops[j].kind == Delivery
    ensures i == r && k == j
  {
    DistinctActionsAreOnce(l.routes);
    assert SameAction(l.routes, i, k, r, j);
  }

  lemma {:induction false} MovedStopAgrees(l: Ledger, m: Ledger, i: int, k: int, a: Execution.Action)
    requires Balanced(l) && Moved(l, m, i, k, a)
    ensures Booked(m, i, k) && Agrees(m, i, k)
  {
    StopsStay(l, m, i, k, a, i, k);
    assert Booked(l, i, k) && Agrees(l, i, k);
  }

  /** Another stop of the same order. */
  lemma {:induction false} SiblingAgrees(l: Ledger, m: Ledger, i: int, k: int, a: Execution.Action, r: int, j: int)
    requires Balanced(l) && SoundPlan(l.routes) && Moved(l, m, i, k, a) && StopAt(l, r, j)
    requires OrderOf(l, r, j) == OrderOf(l, i, k) && (r != i || j != k)
    ensures StopAt(m, r, j) && Booked(m, r, j) && Agrees(m, r, j)
  {
    StopsStay(l, m, i, k, a, r, j);
    assert Booked(l, i, k) && Agrees(l, i, k) && Booked(l, r, j) && Agrees(l, r, j);
    if l.routes[i].stops[k].kind == Delivery { OthersOfDelivery(l, i, k, r, j); }
  }

  /** Everything else of an order whose delivery is next is done, and no delivery. */
  lemma {:induction false} OthersOfDelivery(l: Ledger, i: int, k: int, r: int, j: int)
    requires Balanced(l) && SoundPlan(l.routes) && StopAt(l, i, k) && StopAt(l, r, j) && OrderOf(l, r, j) == OrderOf(l, i, k) && (r != i || j != k)
    requires l.routes[i].stops[k].kind == Delivery && l.routes[i].stops[k].status != Completed && SequenceOk(l.routes[i].stops, k)
    ensures l.routes[r].stops[j].status == Completed && l.routes[r].stops[j].kind != Delivery
  {
    assert BaseOk(l.routes[i]);
    OthersAreDone(l, i, k, r, j);
    if l.routes[r].stops[j].kind == Delivery { OneDelivery(l, i, k, r, j); }
  }

  /** A stop of another order. */
  lemma {:induction false} StrangerAgrees(l: Ledger, m: Ledger, i: int, k: int, a: Execution.Action, r: int, j: int)
    requires Balanced(l) && Moved(l, m, i, k, a) && StopAt(l, r, j) && OrderOf(l, r, j) != OrderOf(l, i, k)
    ensures StopAt(m, r, j) && Booked(m, r, j) && Agrees(m, r, j)
  {
    StopsStay(l, m, i, k, a, r, j);
    assert Booked(l, r, j) && Agrees(l, r, j);
  }

  lemma {:induction false} MovedAgrees(l: Ledger, m: Ledger, i: int, k: int, a: Execution.Action, r: int, j: int)
    requires Balanced(l) && SoundPlan(l.routes) && Moved(l, m, i, k, a) && StopAt(m, r, j)
    ensures Booked(m, r, j) && Agrees(m, r, j)
  {
    StopsStay(l, m, i, k, a, r, j);
    if OrderOf(l, r, j) != OrderOf(l, i, k) {
      StrangerAgrees(l, m, i, k, a, r, j);
    } else if r != i || j != k {
      SiblingAgrees(l, m, i, k, a, r, j);
    } else {
      MovedStopAgrees(l, m, i, k, a);
    }
  }

  lemma {:induction false} StaysServed(l: Ledger, m: Ledger, i: int, k: int, a: Execution.Action, o: Id)
    requires Moved(l, m, i, k, a)
    ensures Served(l, o) ==> Served(m, o)
    ensures Delivered(l, o) ==> Delivered(m, o)
  {
    if r, j :| StopAt(l, r, j) && OrderOf(l, r, j) == o {
      StopsStay(l, m, i, k, a, r, j);
      assert StopAt(m, r, j) && OrderOf(m, r, j) == o;
    }
    if r, j :| StopAt(l, r, j) && OrderOf(l, r, j) == o && l.routes[r].stops[j].kind == Delivery {
      StopsStay(l, m, i, k, a, r, j);
      assert StopAt(m, r, j) && OrderOf(m, r, j) == o && m.routes[r].stops[j].kind == Delivery;
    }
  }

  lemma {:induction false} StaysOnRoute(l: Ledger, m: Ledger, i: int, k: int, a: Execution.Action, o: Id)
    requires Moved(l, m, i, k, a) && OnRoute(l, o)
    ensures OnRoute(m, o)
  {
    var r :| 0 <= r < |l.routes| && l.routes[r].id == l.routeOf[o].value;
    StopsStay(l, m, i, k, a, r, 0);
    assert m.routes[r].id == m.routeOf[o].value;
  }

  /** The order of the moved stop was open, so its membership names the route. */
  lemma {:induction false} MovedOrderTracks(l: Ledger, m: Ledger, i: int, k: int, a: Execution.Action)
    requires Balanced(l) && Moved(l, m, i, k, a)
    ensures Served(l, OrderOf(l, i, k)) && OnRoute(l, OrderOf(l, i, k))
    ensures l.routes[i].stops[k].kind == Delivery ==> Delivered(l, OrderOf(l, i, k))
  {
    assert Booked(l, i, k) && Agrees(l, i, k);
    assert l.routes[i].id == l.routeOf[OrderOf(l, i, k)].value;
  }

  lemma {:induction false} MovedTracks(l: Ledger, m: Ledger, i: int, k: int, a: Execution.Action, o: Id)
    requires Balanced(l) && Moved(l, m, i, k, a) && o in m.status
    ensures Tracked(m, o)
  {
    assert Tracked(l, o);
    MovedOrderTracks(l, m, i, k, a);
    StaysServed(l, m, i, k, a, o);
    if OnRoute(l, o) { StaysOnRoute(l, m, i, k, a, o); }
  }

  lemma {:induction false} MovedEnds(l: Ledger, m: Ledger, i: int, k: int, a: Execution.Action, r: int)
    requires Balanced(l) && Moved(l, m, i, k, a) && 0 <= r < |m.routes|
    ensures DeliveryEnds(m.routes[r].stops)
  {
    var stops := m.routes[r].stops;
    forall x, y | 0 <= x < y < |stops| && stops[x].kind == Delivery ensures stops[y].orderId != stops[x].orderId {
      StopsStay(l, m, i, k, a, r, x);
      StopsStay(l, m, i, k, a, r, y);
      assert DeliveryEnds(l.routes[r].stops);
    }
  }

  /** A stop action keeps the ledger balanced. */
  lemma {:induction false} MovedIsBalanced(l: Ledger, m: Ledger, i: int, k: int, a: Execution.Action)
    requires Balanced(l) && SoundPlan(l.routes) && Moved(l, m, i, k, a)
    ensures Balanced(m)
  {
    forall r, j | StopAt(m, r, j) ensures Booked(m, r, j) && Agrees(m, r, j) {
      MovedAgrees(l, m, i, k, a, r, j);
    }
    forall o | o in m.status ensures Tracked(m, o) {
      MovedTracks(l, m, i, k, a, o);
    }
    forall r | 0 <= r < |m.routes| ensures DeliveryEnds(m.routes[r].stops) {
      MovedEnds(l, m, i, k, a, r);
    }
    forall r ensures 0 <= r < |l.routes| ==> m.routes[r].id == l.routes[r].id {
      StopsStay(l, m, i, k, a, r, 0);
    }
  }

  // ----- runs -----

  function Statuses(orders: map<Id, Order>): map<Id, OrderStatus> {
    map o | o in orders :: orders[o].status
  }

  ghost function LedgerOf(w: World, ids: seq<Id>, routeOf: map<Id, Option<Id>>): Ledger
    requires RowsIn(w, ids)
  {
    Ledger(PlanRoutes(w, ids), Statuses(w.orders), routeOf)
  }

  /** No other route belongs to a current plan. */
  ghost predicate Alone(w: World, ids: seq<Id>) {
    forall r :: r in w.routes && r !in ids ==> w.routes[r].planId !in w.plans || w.plans[w.routes[r].planId] != PlanCurrent
  }

  lemma {:induction false} IdsDiffer(w: World, ids: seq<Id>, i: int, j: int)
    requires RowsIn(w, ids) && SoundPlan(PlanRoutes(w, ids)) && 0 <= i < |ids| && 0 <= j < |ids| && ids[i] == ids[j]
    ensures i == j
  {
    var routes := PlanRoutes(w, ids);
    assert routes[i].vehicleId == routes[j].vehicleId;
  }

  lemma {:induction false} TakenStepMoves(w: World, after: World, ids: seq<Id>, routeOf: map<Id, Option<Id>>, p: Place, a: Execution.Action, t: Instant, i: int)
    requires RowsIn(w, ids) && SoundPlan(PlanRoutes(w, ids)) && 0 <= i < |ids| && ids[i] == p.routeId
    requires RoutesMoved(w, after, p, Execution.Target(a), t) && OrdersMoved(w, after, p, Execution.Target(a)) && RowsIn(after, ids)
    requires w.routes[p.routeId].stops[p.at].status == Expected(a) && SequenceOk(w.routes[p.routeId].stops, p.at)
    ensures Moved(LedgerOf(w, ids, routeOf), LedgerOf(after, ids, routeOf), i, p.at, a)
  {
    RoutesMove(w, after, ids, p, a, t, i);
    StatusesMove(w, after, p, a);
  }

  lemma {:induction false} RoutesMove(w: World, after: World, ids: seq<Id>, p: Place, a: Execution.Action, t: Instant, i: int)
    requires RowsIn(w, ids) && SoundPlan(PlanRoutes(w, ids)) && 0 <= i < |ids| && ids[i] == p.routeId
    requires RoutesMoved(w, after, p, Execution.Target(a), t) && RowsIn(after, ids)
    requires w.routes[p.routeId].stops[p.at].status == Expected(a) && SequenceOk(w.routes[p.routeId].stops, p.at)
    ensures RoutesStep(PlanRoutes(w, ids), PlanRoutes(after, ids), i, p.at, a)
  {
    var x, y := PlanRoutes(w, ids), PlanRoutes(after, ids);
    MovedIsKept(w.routes[p.routeId], p.at, Execution.Target(a), t);
    forall r | 0 <= r < |ids| && r != i ensures y[r] == x[r] {
      if ids[r] == ids[i] { IdsDiffer(w, ids, r, i); }
    }
  }

  lemma {:induction false} StatusesMove(w: World, after: World, p: Place, a: Execution.Action)
    requires OrdersMoved(w, after, p, Execution.Target(a))
    ensures StatusStep(Statuses(w.orders), Statuses(after.orders), w.routes[p.routeId].stops[p.at], a)
  {
    forall o | o in w.orders ensures OrderMoved(w, after, p, Execution.Target(a), o) {
    }
  }

  lemma {:induction false} StepKeepsAlone(threshold: nat, w: World, ids: seq<Id>, stopId: Id, a: Execution.Action, t: Instant)
    requires Alone(w, ids)
    ensures Alone(Execution.Step(threshold, w, stopId, a, t), ids)
  {
    if Takes(w, stopId, a, t) { EffectOnRoutes(threshold, w, w.index[stopId], Execution.Target(a), t); }
  }

  lemma {:induction false} StepIsBalanced(threshold: nat, w: World, ids: seq<Id>, routeOf: map<Id, Option<Id>>, stopId: Id, a: Execution.Action, t: Instant)
    requires RowsIn(w, ids) && SoundPlan(PlanRoutes(w, ids)) && Alone(w, ids) && Balanced(LedgerOf(w, ids, routeOf))
    ensures RowsIn(Execution.Step(threshold, w, stopId, a, t), ids)
    ensures Balanced(LedgerOf(Execution.Step(threshold, w, stopId, a, t), ids, routeOf))
  {
    if Takes(w, stopId, a, t) {
      var p := w.index[stopId];
      var after := Effect(threshold, w, p, Execution.Target(a), t);
      EffectOnRoutes(threshold, w, p, Execution.Target(a), t);
      EffectOnOrders(threshold, w, p, Execution.Target(a), t);
      assert p.routeId in ids;
      var i :| 0 <= i < |ids| && ids[i] == p.routeId;
      TakenStepMoves(w, after, ids, routeOf, p, a, t, i);
      MovedIsBalanced(LedgerOf(w, ids, routeOf), LedgerOf(after, ids, routeOf), i, p.at, a);
    }
  }

  lemma {:induction false} RunOneMore(threshold: nat, w: World, calls: seq<Call>, n: nat)
    requires n < |calls|
    ensures Run(threshold, w, calls[..n + 1])
            == Execution.Step(threshold, Run(threshold, w, calls[..n]), calls[n].stopId, calls[n].action, calls[n].at)
  {
    assert calls[..n + 1][..n] == calls[..n];
  }

  /** Whatever is called, a balanced ledger stays balanced. */
  lemma {:induction false} RunIsBalanced(threshold: nat, w: World, ids: seq<Id>, routeOf: map<Id, Option<Id>>, calls: seq<Call>)
    requires RowsIn(w, ids) && SoundPlan(PlanRoutes(w, ids)) && Alone(w, ids) && Balanced(LedgerOf(w, ids, routeOf))
    ensures RowsIn(Run(threshold, w, calls), ids) && Balanced(LedgerOf(Run(threshold, w, calls), ids, routeOf))
  {
    assert calls[..0] == [];
    for n := 0 to |calls|
      invariant RowsIn(Run(threshold, w, calls[..n]), ids) && Alone(Run(threshold, w, calls[..n]), ids)
      invariant Balanced(LedgerOf(Run(threshold, w, calls[..n]), ids, routeOf))
    {
      RunKeepsSound(threshold, w, calls[..n], ids);
      StepKeepsAlone(threshold, Run(threshold, w, calls[..n]), ids, calls[n].stopId, calls[n].action, calls[n].at);
      StepIsBalanced(threshold, Run(threshold, w, calls[..n]), ids, routeOf, calls[n].stopId, calls[n].action, calls[n].at);
      RunOneMore(threshold, w, calls, n);
    }
    assert calls[..|calls|] == calls;
  }
}

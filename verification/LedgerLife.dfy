/** The day of a plan with its orders: in every ledger that storing, execution and recovery lead to, the next
    recovery repeats an action exactly when an affected order has been completed. */
module LedgerLife {
  import opened Ordering
  import opened Domain
  import opened Optimization
  import opened Finalizer
  import opened FinalizedPlan
  import Feasibility
  import opened ExecutionInvariants
  import opened CandidateActions
  import CandidateReview
  import Comparison
  import opened RecoveryHistory
  import Execution
  import opened ExecutedPlans
  import ReplannedOrders
  import opened PlanLedger
  import opened LedgerRecovery

  // ----- the first ledger -----

  ghost function TablesOf(origin: Origin): Context {
    ContextOf(origin.facts, origin.roads, origin.planId)
  }

  /** The rows that `finalize` stores: every order waits, and has its membership. */
  ghost predicate Opens(origin: Origin, l: Ledger) {
    && origin.Ok() && AllBuildable(origin.facts, origin.result, TablesOf(origin), origin.first) && l.routes == origin.Rows()
    && l.status.Keys == TablesOf(origin).orders.Keys && (forall o :: o in l.status ==> l.status[o] == OrderPlanned)
    && var members := NewMemberships(origin.facts, origin.result, TablesOf(origin), origin.first);
       forall j :: 0 <= j < |members| ==> MemberListed(l, members[j])
  }

  ghost predicate MemberListed(l: Ledger, m: Membership) {
    m.orderId in l.routeOf && l.routeOf[m.orderId] == ReplannedOrders.RouteOfMember(m)
  }

  lemma {:induction false} MembersSettle(origin: Origin, j: nat) returns (m: Membership)
    requires origin.Ok() && AllBuildable(origin.facts, origin.result, TablesOf(origin), origin.first) && j < |origin.facts.orders|
    ensures j < |NewMemberships(origin.facts, origin.result, TablesOf(origin), origin.first)|
    ensures m == NewMemberships(origin.facts, origin.result, TablesOf(origin), origin.first)[j]
    ensures SettledBy(origin.first, origin.result.routes, origin.facts.orders[j].orderId, m)
    ensures Feasibility.SettledOnce(origin.result, origin.facts.orders[j].orderId)
  {
    var g, c := origin, TablesOf(origin);
    MembershipsSettleEveryOrder(g.facts, g.locations, g.distances, g.durations, g.result, c, g.first,
                                NewPlan(g.facts, g.result, c.roads, None, None, c.planId), None, None);
    CertifiedIsRouted(g.facts, g.locations, g.distances, g.durations, g.result);
    PlanningOrderKeys(g.facts.orders);
    m := NewMemberships(g.facts, g.result, c, g.first)[j];
  }

  lemma {:induction false} FirstStopAgrees(origin: Origin, l: Ledger, r: int, k: int)
    requires Opens(origin, l) && StopAt(l, r, k)
    ensures Booked(l, r, k) && Agrees(l, r, k)
  {
    var c, routes := TablesOf(origin), origin.result.routes;
    NewRouteIsFinalized(c, origin.first, routes, r);
    assert MadeFrom(c.orders, l.routes[r].stops[k], routes[r].stops[k]);
    var o := OrderOf(l, r, k);
    PlanningOrderKeys(origin.facts.orders);
    var j :| 0 <= j < |origin.facts.orders| && origin.facts.orders[j].orderId == o;
    var m := MembersSettle(origin, j);
    assert Feasibility.OnRoute(routes, r, o);
    ReplannedOrders.SettledByThatRoute(origin.first, origin.result, r, o, m);
    assert MemberListed(l, m);
  }

  lemma {:induction false} FirstRouteEnds(origin: Origin, l: Ledger, r: int)
    requires Opens(origin, l) && 0 <= r < |l.routes|
    ensures DeliveryEnds(l.routes[r].stops)
  {
    var c, routes, stops := TablesOf(origin), origin.result.routes, l.routes[r].stops;
    NewRouteIsFinalized(c, origin.first, routes, r);
    CertifiedIsRouted(origin.facts, origin.locations, origin.distances, origin.durations, origin.result);
    assert RouteFits(c.orders, c.pairs[routes[r].vehicleId], routes[r]);
    forall k, j | 0 <= k < j < |stops| && stops[k].kind == Delivery ensures stops[j].orderId != stops[k].orderId {
      assert MadeFrom(c.orders, stops[k], routes[r].stops[k]) && MadeFrom(c.orders, stops[j], routes[r].stops[j]);
      assert StopFits(c.orders, routes[r].stops, k);
      var p, d :| PickedThenDropped(routes[r].stops, routes[r].stops[k].orderId, p, d);
    }
  }

  lemma {:induction false} FirstRoutesDiffer(origin: Origin)
    requires origin.Ok()
    ensures DistinctRoutes(origin.Rows())
  {
    NewRoutesAreSpaced(TablesOf(origin), origin.first, origin.result.routes);
    RowsDiffer(origin.Rows(), RouteIdAt(origin.first, origin.result.routes, |origin.result.routes|));
  }

  lemma {:induction false} OpeningIsBalanced(origin: Origin, l: Ledger)
    requires Opens(origin, l)
    ensures Balanced(l) && SoundPlan(l.routes)
  {
    OriginIsSound(origin);
    FirstRoutesDiffer(origin);
    forall r, k | StopAt(l, r, k) ensures Booked(l, r, k) && Agrees(l, r, k) {
      FirstStopAgrees(origin, l, r, k);
    }
    forall r | 0 <= r < |l.routes| ensures DeliveryEnds(l.routes[r].stops) {
      FirstRouteEnds(origin, l, r);
    }
  }

  // ----- the day -----

  /** Stop actions, or an approved recovery with the context it was read from. */
  datatype Part = Worked(threshold: nat, w: Execution.World, ids: seq<Id>, calls: seq<Call>) | Recovered(turn: Turn)

  /** A recovery that was compared and passed the gate. */
  ghost predicate Approved(turn: Turn) {
    && Reads(turn.l, turn.b, turn.scope, turn.targets, turn.answer.f.c) && turn.answer.Ok() && turn.Draft().Written?
    && Comparison.DistinctKeys(Comparison.Actions(turn.answer.Rows())) && turn.Passes()
  }

  ghost predicate Continues(l: Ledger, part: Part, m: Ledger) {
    match part
    case Worked(threshold, w, ids, calls) =>
      && RowsIn(w, ids) && Alone(w, ids) && l == LedgerOf(w, ids, l.routeOf)
      && RowsIn(Run(threshold, w, calls), ids) && m == LedgerOf(Run(threshold, w, calls), ids, l.routeOf)
    case Recovered(turn) => turn.l == l && Approved(turn) && m == turn.Next()
  }

  ghost predicate Parts(ledgers: seq<Ledger>, parts: seq<Part>) {
    |ledgers| == |parts| + 1 && forall n :: 0 <= n < |parts| ==> Continues(ledgers[n], parts[n], ledgers[n + 1])
  }

  ghost predicate Day(origin: Origin, ledgers: seq<Ledger>, parts: seq<Part>) {
    Parts(ledgers, parts) && Opens(origin, ledgers[0])
  }

  /** A recovery read from a balanced ledger can be compared exactly when no affected order has been
      completed. */
  lemma {:induction false} ComparableIff(turn: Turn)
    requires Balanced(turn.l) && SoundPlan(turn.l.routes)
    requires Reads(turn.l, turn.b, turn.scope, turn.targets, turn.answer.f.c) && turn.answer.Ok()
    ensures Comparison.DistinctKeys(Comparison.Actions(turn.answer.Rows())) <==> ReplannedOrders.NoneFinished(turn.b)
    ensures SoundPlan(turn.answer.Rows()) <==> ReplannedOrders.NoneFinished(turn.b)
  {
    RepeatsIffFinished(turn.l, turn.b, turn.scope, turn.targets, turn.answer.f.c);
    ReplannedOrders.AnswerIsComparable(turn.answer);
    AnswerIsSound(turn.answer);
  }

  lemma {:induction false} ApprovedIsBalanced(turn: Turn)
    requires Balanced(turn.l) && SoundPlan(turn.l.routes) && Approved(turn)
    ensures Balanced(turn.Next()) && SoundPlan(turn.Next().routes)
  {
    ComparableIff(turn);
    NextIsBalanced(turn);
  }

  lemma {:induction false} WorkedIsBalanced(l: Ledger, part: Part, m: Ledger)
    requires Balanced(l) && SoundPlan(l.routes) && part.Worked? && Continues(l, part, m)
    ensures Balanced(m) && SoundPlan(m.routes)
  {
    RunKeepsSound(part.threshold, part.w, part.calls, part.ids);
    RunIsBalanced(part.threshold, part.w, part.ids, l.routeOf, part.calls);
  }

  lemma {:induction false} PartIsBalanced(l: Ledger, part: Part, m: Ledger)
    requires Balanced(l) && SoundPlan(l.routes) && Continues(l, part, m)
    ensures Balanced(m) && SoundPlan(m.routes)
  {
    if part.Worked? {
      WorkedIsBalanced(l, part, m);
    } else {
      ApprovedIsBalanced(part.turn);
    }
  }

  /** Whatever mixture of stop actions and approved recoveries: statuses, stops and memberships agree in
      every ledger of the day. */
  lemma {:induction false} EveryLedgerIsBalanced(origin: Origin, ledgers: seq<Ledger>, parts: seq<Part>, n: nat)
    requires Day(origin, ledgers, parts) && n < |ledgers|
    ensures Balanced(ledgers[n]) && SoundPlan(ledgers[n].routes)
  {
    OpeningIsBalanced(origin, ledgers[0]);
    for k := 0 to n
      invariant Balanced(ledgers[k]) && SoundPlan(ledgers[k].routes)
    {
      PartIsBalanced(ledgers[k], parts[k], ledgers[k + 1]);
    }
  }

  /** At any point of any such day, approved candidates included: the candidate of the next recovery can be
      compared with the plan, and is as sound, exactly when no order that the incident was reported to
      affect has been completed since. */
  lemma {:induction false} AnyRecoveryIsComparableIff(origin: Origin, ledgers: seq<Ledger>, parts: seq<Part>, turn: Turn)
    requires Day(origin, ledgers, parts) && turn.l == ledgers[|parts|]
    requires Reads(turn.l, turn.b, turn.scope, turn.targets, turn.answer.f.c) && turn.answer.Ok()
    ensures Comparison.DistinctKeys(Comparison.Actions(turn.answer.Rows())) <==> ReplannedOrders.NoneFinished(turn.b)
    ensures SoundPlan(turn.answer.Rows()) <==> ReplannedOrders.NoneFinished(turn.b)
  {
    EveryLedgerIsBalanced(origin, ledgers, parts, |parts|);
    ComparableIff(turn);
  }
}

/** A second incident before a handed-over order has been loaded again: the accepted recovery cannot be
    written, because the delivery finds no stop that loaded the goods. */
module MissingOrigin {
  import opened Ordering
  import opened Domain
  import opened Optimization
  import opened Finalizer
  import opened FinalizedPlan
  import opened Candidate
  import opened CandidateLaws
  import opened SmallInputs
  import RecoveryContext

  const ORDER: Id := 7
  const BREAKDOWN: Id := 50
  const CUSTOMER: Id := 60
  const WANTED := PlanningOrder(ORDER, 40, CUSTOMER, 0, 0, 0, 100, 0, 1)

  /** What an approved recovery left of the vehicle that broke down with order 7 on board. */
  function Donor(): Route {
    Route(300, 20, 1, 2, 2, 2, BREAKDOWN, BREAKDOWN, RouteCompleted, 0, 20, Some(0), None, 0, 20, 5,
          [Stop(301, 300, ORDER, 40, Pickup, 1, None, None, 5, 5, Some(5), Some(5), 0, Some(0), None, 1, Completed)])
  }

  /** Vehicle 1 is to fetch it where it stands. */
  function Receiver(): Route {
    Route(400, 20, 2, 1, 1, 11, BREAKDOWN, CUSTOMER, RoutePlanned, 20, 40, None, None, 0, 20, 5,
          [Stop(401, 400, ORDER, BREAKDOWN, Handover, 1, None, Some(3), 30, 30, None, None, 0, Some(20), None, 1, Planned),
           Stop(402, 400, ORDER, CUSTOMER, Delivery, 2, Some(401), None, 40, 40, None, None, 0, Some(0), Some(100), 1, Planned)])
  }

  /** The order counts as picked up and vehicle 1 as the one that has it. */
  function Tables(): RecoveryContext.Base {
    RecoveryContext.Base(25, map[ORDER := RecoveryContext.BaseRow(WANTED, 5, PickedUp, Some(400))], map[300 := Donor(), 400 := Receiver()], {1},
                         map[ORDER := RecoveryContext.Impact(true, false, Some(400))], None, None)
  }

  function OnBoard(): Target {
    Target(ORDER, 40, CUSTOMER, 0, 0, 0, 100, 0, 1, Some(400), None, Some(1))
  }

  function Second(): Recovery {
    Recovery(4, None, None, 20, 1, 25, [OnBoard()], [VehicleFact(11, 1, 1, 5, 1, BREAKDOWN, 25, 200)], [Donor(), Receiver()],
             [Member(ORDER, Some(400), None)])
  }

  lemma {:induction false} ContextIs(scope: RecoveryContext.Scope)
    ensures forall o :: RecoveryContext.InScope(Tables(), scope, o) <==> o == ORDER
    ensures RecoveryContext.FactsOf(Tables(), Ascending({ORDER}), Second().targets)
    ensures RecoveryContext.LoadOn(Second().targets, 1) == 1
  {
    assert RecoveryContext.Affected(Tables(), ORDER);
    AscendingUnique([ORDER], {ORDER});
    assert Second().targets[..0] == [];
  }

  function Order7(): SolverOrder {
    SolverOrder(ORDER, None, None, CUSTOMER, 0, 0, 75, 0, 0, 0, 1, Some(1))
  }

  function Vehicle1(): SolverVehicle {
    SolverVehicle(1, 5, BREAKDOWN, 0, 175, 1)
  }

  lemma {:induction false} InputIs()
    ensures RecoveryInput(Second(), [BREAKDOWN, CUSTOMER], NOWHERE, NOWHERE) == OneOrder(Order7(), Vehicle1(), BREAKDOWN, CUSTOMER)
  {
    var c := Second();
    assert c.targets[..0] == [] && c.vehicles[..0] == [];
    assert AsRecoveryOrders(c.now, c.targets) == [Order7()];
    assert AsRecoveryVehicles(c.now, c.vehicles) == [Vehicle1()];
  }

  function Result(): SolverResult {
    Only(Drop(Order7(), Vehicle1(), CUSTOMER))
  }

  lemma {:induction false} ResultIsCertified()
    ensures Certified(RecoveryInput(Second(), [BREAKDOWN, CUSTOMER], NOWHERE, NOWHERE), Result())
  {
    InputIs();
    DropIsCertified(Order7(), Vehicle1(), BREAKDOWN, CUSTOMER);
  }

  lemma {:induction false} NothingIsKept()
    ensures Surviving(Receiver().stops, {ORDER}) == []
  {
    var stops := Receiver().stops;
    assert stops[..1] == [stops[0]] && stops[..1][..0] == [];
    assert Surviving(stops[..1], {ORDER}) == [];
  }

  lemma {:induction false} GoodsAreMissing()
    ensures !GoodsAreLoaded(Second())
  {
    NothingIsKept();
    var c := Second();
    assert c.targets[..0] == [];
    assert TargetsById(c.targets).Keys == {ORDER};
    assert RebuiltIds(c.targets) == {400 as Id} by { assert c.targets[0].originalRoute == Some(400); }
    assert OnBoard() in c.targets;
    assert !LoadedOn(c, OnBoard());
  }

  /** The recovery is accepted with every order assigned, and its candidate cannot be written. */
  lemma {:induction false} AcceptedButNotWritten(f: Frame, first: Id)
    requires f.c == Second()
    ensures Certified(RecoveryInput(f.c, [BREAKDOWN, CUSTOMER], NOWHERE, NOWHERE), Result()) && Result().unassigned == []
    ensures !GoodsAreLoaded(f.c) && FinalDraft(f, Result(), first) == Failed
  {
    ResultIsCertified();
    GoodsAreMissing();
    assert NoEmptyRoute(Result().routes) && OneRoutePerVehicle(f.c.routes);
    LookupsSucceedIffGoodsAreLoaded(f, [BREAKDOWN, CUSTOMER], NOWHERE, NOWHERE, Result(), first);
  }
}

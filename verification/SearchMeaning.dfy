/** What the search for alternatives leaves out and what it takes for the same plan, told from the rows of
    the problem and of the answers. */
module SearchMeaning {
  import opened Ordering
  import opened Domain
  import opened Optimization
  import opened Checker
  import opened Feasibility
  import opened Itineraries
  import opened Alternatives

  // ----- vehicles that cannot be left out -----

  /** The vehicle has goods on board, or a task that must not change. */
  ghost predicate IsBound(source: SolverInput, v: Id) {
    || (exists i :: 0 <= i < |source.orders| && source.orders[i].requiredVehicle == Some(v))
    || exists i :: 0 <= i < |source.frozen| && source.frozen[i].vehicleId == v
  }

  lemma {:induction false} RequiredIff(source: SolverInput, v: Id)
    ensures v in Required(source) <==> IsBound(source, v)
  {
    if i :| 0 <= i < |source.orders| && source.orders[i].requiredVehicle == Some(v) { assert source.orders[i] in source.orders; }
    if i :| 0 <= i < |source.frozen| && source.frozen[i].vehicleId == v { assert source.frozen[i] in source.frozen; }
  }

  ghost predicate Drives(routes: seq<SolverRoute>, v: Id) {
    exists i :: 0 <= i < |routes| && routes[i].vehicleId == v
  }

  lemma {:induction false} BoundOrderDrives(problem: SolverInput, answer: SolverResult, order: SolverOrder)
    requires problem.Valid() && Complete(answer) && Passes(problem, answer) && order in problem.orders && order.requiredVehicle.Some?
    ensures Drives(answer.routes, order.requiredVehicle.value)
  {
    AcceptedIffRouting(problem, answer);
    assert Settles(answer, order);
    forall j ensures !ListedAt(answer.unassigned, j, order.orderId) { }
    var i, p, d :| Transports(answer.routes, order, i, p, d);
    assert answer.routes[i].vehicleId == order.requiredVehicle.value;
  }

  /** Every complete answer that passes drives every vehicle that is bound, so leaving one out can never
      lead to a plan. */
  lemma {:induction false} BoundVehiclesDrive(source: SolverInput, excluded: set<Id>, answer: SolverResult, v: Id)
    requires source.Valid() && Complete(answer) && Passes(Without(source, excluded), answer) && IsBound(source, v)
    ensures Drives(answer.routes, v) && v !in excluded
  {
    var problem := Without(source, excluded);
    WithoutIsValid(source, excluded);
    if i :| 0 <= i < |source.orders| && source.orders[i].requiredVehicle == Some(v) {
      BoundOrderDrives(problem, answer, source.orders[i]);
    } else {
      var i :| 0 <= i < |source.frozen| && source.frozen[i].vehicleId == v;
      AcceptedIffRouting(problem, answer);
      assert source.frozen[i] in problem.frozen;
      assert StaysOn(answer.routes, source.frozen[i]);
    }
    PassesWithoutIff(source, excluded, answer);
    var i :| 0 <= i < |answer.routes| && answer.routes[i].vehicleId == v;
    assert v in Drivers(answer.routes);
  }

  // ----- the reduced problem -----

  /** The vehicles that are left, in their order. */
  ghost predicate Leaves(vehicles: seq<SolverVehicle>, excluded: set<Id>, left: seq<nat>) {
    && (forall i: nat :: i in left <==> i < |vehicles| && vehicles[i].vehicleId !in excluded)
    && forall j, k :: 0 <= j < k < |left| ==> left[j] < left[k]
  }

  /** A reduced problem differs in the list of its vehicles only. */
  lemma {:induction false} ReducedProblem(source: SolverInput, excluded: set<Id>) returns (left: seq<nat>)
    ensures Leaves(source.vehicles, excluded, left)
    ensures Listed(source.vehicles, Without(source, excluded).vehicles, left)
    ensures Without(source, excluded) == source.(vehicles := Without(source, excluded).vehicles)
  {
    left := VehiclesLeft(source.vehicles, excluded);
  }

  ghost predicate Listed(vehicles: seq<SolverVehicle>, kept: seq<SolverVehicle>, left: seq<nat>) {
    |kept| == |left| && forall j :: 0 <= j < |left| ==> left[j] < |vehicles| && kept[j] == vehicles[left[j]]
  }

  lemma {:induction false} VehiclesLeft(vehicles: seq<SolverVehicle>, excluded: set<Id>) returns (left: seq<nat>)
    ensures Leaves(vehicles, excluded, left) && Listed(vehicles, Keep(vehicles, excluded), left)
  {
    if vehicles == [] {
      left := [];
    } else {
      var n := |vehicles| - 1;
      var before := VehiclesLeft(vehicles[..n], excluded);
      left := before + if vehicles[n].vehicleId in excluded then [] else [n];
      LeavesOneMore(vehicles, excluded, before);
    }
  }

  lemma {:induction false} LeavesOneMore(vehicles: seq<SolverVehicle>, excluded: set<Id>, before: seq<nat>)
    requires vehicles != [] && Leaves(vehicles[..|vehicles| - 1], excluded, before)
    ensures var n := |vehicles| - 1; Leaves(vehicles, excluded, before + if vehicles[n].vehicleId in excluded then [] else [n])
  {
    var n := |vehicles| - 1;
    var left := before + if vehicles[n].vehicleId in excluded then [] else [n];
    forall j | 0 <= j < |before| ensures before[j] < n { assert before[j] in before; }
    forall i: nat ensures i in left <==> i < |vehicles| && vehicles[i].vehicleId !in excluded {
      assert i in left <==> i in before || (i == n && vehicles[n].vehicleId !in excluded);
    }
  }

  // ----- the same plan -----

  /** The same tasks at the same places in the same order, whatever the times and loads. */
  ghost predicate SameVisits(x: seq<SolverStop>, y: seq<SolverStop>) {
    && |x| == |y|
    && forall k :: 0 <= k < |x| ==> x[k].orderId == y[k].orderId && x[k].kind == y[k].kind && x[k].locationId == y[k].locationId
  }

  ghost predicate SameTour(x: SolverRoute, y: SolverRoute) {
    x.vehicleId == y.vehicleId && SameVisits(x.stops, y.stops)
  }

  /** Every tour of x is one of y. */
  ghost predicate ToursIn(x: seq<SolverRoute>, y: seq<SolverRoute>) {
    forall i :: 0 <= i < |x| ==> exists j :: 0 <= j < |y| && SameTour(x[i], y[j])
  }

  ghost predicate OnePerVehicle(routes: seq<SolverRoute>) {
    forall i, j :: 0 <= i < j < |routes| ==> routes[i].vehicleId != routes[j].vehicleId
  }

  lemma {:induction false} VisitsIff(x: seq<SolverStop>, y: seq<SolverStop>)
    ensures |Visits(x)| == |x|
    ensures Visits(x) == Visits(y) <==> SameVisits(x, y)
  {
    VisitsAre(x);
    VisitsAre(y);
    if Visits(x) == Visits(y) {
      forall k | 0 <= k < |x| ensures x[k].orderId == y[k].orderId && x[k].kind == y[k].kind && x[k].locationId == y[k].locationId {
        assert Visits(x)[k] == Visits(y)[k];
      }
    }
  }

  lemma {:induction false} VisitsAre(x: seq<SolverStop>)
    ensures |Visits(x)| == |x|
    ensures forall k :: 0 <= k < |x| ==> Visits(x)[k] == Visit(x[k].orderId, x[k].kind, x[k].locationId)
  {
    if x != [] { VisitsAre(x[..|x| - 1]); }
  }

  lemma {:induction false} TourIn(routes: seq<SolverRoute>, t: Tour)
    ensures t in Signature(routes) <==> exists i :: 0 <= i < |routes| && t == Tour(routes[i].vehicleId, Visits(routes[i].stops))
  {
    if routes != [] {
      var front, last := routes[..|routes| - 1], routes[|routes| - 1];
      TourIn(front, t);
      if i :| 0 <= i < |routes| && t == Tour(routes[i].vehicleId, Visits(routes[i].stops)) {
        if i < |front| { assert front[i] == routes[i]; }
      }
    }
  }

  lemma {:induction false} TourOnce(routes: seq<SolverRoute>, t: Tour)
    requires OnePerVehicle(routes)
    ensures Signature(routes)[t] <= 1
  {
    if routes != [] {
      var front, last := routes[..|routes| - 1], routes[|routes| - 1];
      TourOnce(front, t);
      TourIn(front, Tour(last.vehicleId, Visits(last.stops)));
    }
  }

  /** The tour of a route is one of y exactly when some route of y is the same tour. */
  lemma {:induction false} TourOf(route: SolverRoute, y: seq<SolverRoute>)
    ensures Tour(route.vehicleId, Visits(route.stops)) in Signature(y) <==> exists j :: 0 <= j < |y| && SameTour(route, y[j])
  {
    var t := Tour(route.vehicleId, Visits(route.stops));
    TourIn(y, t);
    forall j | 0 <= j < |y| ensures t == Tour(y[j].vehicleId, Visits(y[j].stops)) <==> SameTour(route, y[j]) {
      VisitsIff(route.stops, y[j].stops);
    }
  }

  lemma {:induction false} ToursAreShown(x: seq<SolverRoute>, y: seq<SolverRoute>)
    requires ToursIn(x, y)
    ensures forall t :: t in Signature(x) ==> t in Signature(y)
  {
    forall t | t in Signature(x) ensures t in Signature(y) {
      TourIn(x, t);
      var i :| 0 <= i < |x| && t == Tour(x[i].vehicleId, Visits(x[i].stops));
      TourOf(x[i], y);
    }
  }

  lemma {:induction false} SameSignatureSameTours(x: seq<SolverRoute>, y: seq<SolverRoute>)
    requires Signature(x) == Signature(y)
    ensures ToursIn(x, y)
  {
    forall i | 0 <= i < |x| ensures exists j :: 0 <= j < |y| && SameTour(x[i], y[j]) {
      TourIn(x, Tour(x[i].vehicleId, Visits(x[i].stops)));
      TourOf(x[i], y);
    }
  }

  /** Two answers count as the same plan exactly when the same vehicles drive the same tours. */
  lemma {:induction false} SamePlanIff(x: seq<SolverRoute>, y: seq<SolverRoute>)
    requires OnePerVehicle(x) && OnePerVehicle(y)
    ensures Signature(x) == Signature(y) <==> ToursIn(x, y) && ToursIn(y, x)
  {
    if Signature(x) == Signature(y) {
      SameSignatureSameTours(x, y);
      SameSignatureSameTours(y, x);
    }
    if ToursIn(x, y) && ToursIn(y, x) {
      ToursAreShown(x, y);
      ToursAreShown(y, x);
      forall t ensures Signature(x)[t] == Signature(y)[t] {
        TourOnce(x, t);
        TourOnce(y, t);
      }
    }
  }

  // ----- the problems that are asked -----

  /** A vehicle that the answer drives and that is not bound. */
  ghost predicate CanSpare(source: SolverInput, answer: SolverResult, v: Id) {
    Drives(answer.routes, v) && !IsBound(source, v)
  }

  ghost predicate FirstSpare(source: SolverInput, answer: SolverResult, v: Id) {
    CanSpare(source, answer, v) && forall w :: CanSpare(source, answer, w) ==> v <= w
  }

  ghost predicate SecondSpare(source: SolverInput, answer: SolverResult, first: Id, v: Id) {
    CanSpare(source, answer, v) && first < v && forall w :: CanSpare(source, answer, w) && first < w ==> v <= w
  }

  lemma {:induction false} SparesAre(source: SolverInput, answer: SolverResult)
    ensures var spares := Drivers(answer.routes) - Required(source);
            && Increasing(Ascending(spares))
            && forall v :: v in Ascending(spares) <==> CanSpare(source, answer, v)
  {
    var spares := Drivers(answer.routes) - Required(source);
    AscendingSorts(spares);
    forall v: Id ensures v in spares <==> CanSpare(source, answer, v) { RequiredIff(source, v); }
  }

  lemma {:induction false} ChildrenAt(vehicles: seq<Id>, excluded: set<Id>, seen: set<set<Id>>)
    requires forall i :: 0 <= i < |vehicles| ==> excluded + {vehicles[i]} !in seen
    ensures |Children(vehicles, excluded, seen)| == |vehicles|
    ensures forall i :: 0 <= i < |vehicles| ==> Children(vehicles, excluded, seen)[i] == excluded + {vehicles[i]}
  {
    if vehicles != [] { ChildrenAt(vehicles[..|vehicles| - 1], excluded, seen); }
  }

  /** Without an answer yet the whole problem is asked. */
  lemma {:induction false} FirstProblem(required: set<Id>, excluded: set<Id>)
    requires NextInLine(required, [], excluded)
    ensures excluded == {}
  {
  }

  /** What is queued after the first answer: the problems with one vehicle less. */
  lemma {:induction false} AfterFirst(source: SolverInput, call: Call)
    requires call.excluded == {}
    ensures var spares := Ascending(Drivers(call.answer.routes) - Required(source));
            var queued := Queued(Required(source), [call]);
            && ExcludedBy([call]) == {{}} && |queued| == 1 + (if Complete(call.answer) then |spares| else 0) && queued[0] == {}
            && forall i :: 1 <= i < |queued| ==> queued[i] == {spares[i - 1]}
  {
    var spares := Ascending(Drivers(call.answer.routes) - Required(source));
    assert [call][..0] == [] && [call][0] == call;
    assert ExcludedBy([call]) == {{}} by {
      forall q ensures q in ExcludedBy([call]) <==> q == {} {
        if q == {} { assert [call][0].excluded == q; }
      }
    }
    if Complete(call.answer) {
      ChildrenAt(spares, {}, {{}});
      forall i | 0 <= i < |spares| ensures {} + {spares[i]} == {spares[i]} { }
    }
  }

  lemma {:induction false} LeastIsFirst(source: SolverInput, answer: SolverResult)
    ensures var spares := Ascending(Drivers(answer.routes) - Required(source));
            && (spares != [] ==> FirstSpare(source, answer, spares[0]))
            && (1 < |spares| ==> SecondSpare(source, answer, spares[0], spares[1]))
            && (|spares| == 1 ==> forall w :: CanSpare(source, answer, w) ==> w == spares[0])
  {
    var spares := Ascending(Drivers(answer.routes) - Required(source));
    SparesAre(source, answer);
    if spares != [] { assert spares[0] in spares; }
    if 1 < |spares| { assert spares[1] in spares; }
    forall w | CanSpare(source, answer, w) ensures exists j :: 0 <= j < |spares| && spares[j] == w {
      assert w in spares;
    }
  }

  /** The first n in the queue were asked, the next was not. */
  lemma {:induction false} NextIsFirst(queued: seq<set<Id>>, seen: set<set<Id>>, n: nat, i: int)
    requires n <= |queued| && AllAsked(queued, seen, n) && (n < |queued| ==> queued[n] !in seen) && FirstUnasked(queued, seen, i)
    ensures n < |queued| && i == n
  {
  }

  lemma {:induction false} SingleIsNew(v: Id, w: Id)
    ensures {v} != {} && (v != w ==> {v} != {w} && {v, w} != {v} && {v, w} != {})
  {
    assert v in {v} && w in {w} && w in {v, w};
    if v != w { assert w !in {v}; }
  }

  /** After the first answer, the problem without its first vehicle that can be spared. */
  lemma {:induction false} SecondProblem(source: SolverInput, call: Call, excluded: set<Id>)
    requires call.excluded == {} && NextInLine(Required(source), [call], excluded)
    ensures Complete(call.answer) && exists v: Id :: FirstSpare(source, call.answer, v) && excluded == {v}
  {
    var spares := Ascending(Drivers(call.answer.routes) - Required(source));
    var queued := Queued(Required(source), [call]);
    AfterFirst(source, call);
    LeastIsFirst(source, call.answer);
    var i :| FirstUnasked(queued, {{}}, i) && queued[i] == excluded;
    if 1 < |queued| { SingleIsNew(spares[0], spares[0]); }
    NextIsFirst(queued, {{}}, 1, i);
  }

  lemma {:induction false} TwoAsked(first: Call, second: Call)
    ensures ExcludedBy([first, second]) == {first.excluded, second.excluded}
  {
    var trace := [first, second];
    forall q ensures q in ExcludedBy(trace) <==> q == first.excluded || q == second.excluded {
      if q == first.excluded { assert trace[0].excluded == q; }
      if q == second.excluded { assert trace[1].excluded == q; }
    }
  }

  lemma {:induction false} AddedSecond(source: SolverInput, second: Call, v: Id)
    requires second.excluded == {v} && v !in Drivers(second.answer.routes) && Complete(second.answer)
    ensures var spares, added := Ascending(Drivers(second.answer.routes) - Required(source)), Added(second, Required(source), {{}, {v}});
            && |added| == |spares| && forall i :: 0 <= i < |spares| ==> spares[i] != v && added[i] == {v, spares[i]}
  {
    var others := Drivers(second.answer.routes) - Required(source);
    var spares := Ascending(others);
    AscendingSorts(others);
    forall i | 0 <= i < |spares| ensures spares[i] != v && {v} + {spares[i]} == {v, spares[i]} && {v} + {spares[i]} !in {{}, {v}} {
      assert spares[i] in spares;
      SingleIsNew(v, spares[i]);
    }
    ChildrenAt(spares, {v}, {{}, {v}});
  }

  /** What is queued after the second answer: besides, the problems with one vehicle less than that. */
  lemma {:induction false} AfterSecond(source: SolverInput, first: Call, second: Call, v: Id)
    requires first.excluded == {} && second.excluded == {v} && v !in Drivers(second.answer.routes)
    ensures var queued, before := Queued(Required(source), [first, second]), Queued(Required(source), [first]);
            var spares := Ascending(Drivers(second.answer.routes) - Required(source));
            && ExcludedBy([first, second]) == {{}, {v}}
            && |queued| == |before| + (if Complete(second.answer) then |spares| else 0) && queued[..|before|] == before
            && (Complete(second.answer) && spares != [] ==> spares[0] != v && queued[|before|] == {v, spares[0]})
  {
    var trace := [first, second];
    assert trace[..1] == [first];
    TwoAsked(first, second);
    if Complete(second.answer) { AddedSecond(source, second, v); }
  }

  lemma {:induction false} FirstSpareIsFirst(source: SolverInput, answer: SolverResult, v: Id)
    requires FirstSpare(source, answer, v)
    ensures var spares := Ascending(Drivers(answer.routes) - Required(source)); spares != [] && spares[0] == v
  {
    SparesAre(source, answer);
    LeastIsFirst(source, answer);
    assert v in Ascending(Drivers(answer.routes) - Required(source));
  }

  /** After the second, the problem without the next vehicle of the first answer that can be spared; without
      one, the second problem without a further vehicle. */
  lemma {:induction false} ThirdProblem(source: SolverInput, first: Call, second: Call, v: Id, excluded: set<Id>)
    requires first.excluded == {} && second.excluded == {v} && v !in Drivers(second.answer.routes)
    requires Complete(first.answer) && FirstSpare(source, first.answer, v) && NextInLine(Required(source), [first, second], excluded)
    ensures (exists w: Id :: SecondSpare(source, first.answer, v, w) && excluded == {w})
            || ((forall w :: CanSpare(source, first.answer, w) ==> w == v)
                && Complete(second.answer) && exists w: Id :: FirstSpare(source, second.answer, w) && excluded == {v, w})
  {
    var spares := Ascending(Drivers(first.answer.routes) - Required(source));
    var others := Ascending(Drivers(second.answer.routes) - Required(source));
    var before, queued := Queued(Required(source), [first]), Queued(Required(source), [first, second]);
    AfterFirst(source, first);
    AfterSecond(source, first, second, v);
    FirstSpareIsFirst(source, first.answer, v);
    LeastIsFirst(source, first.answer);
    LeastIsFirst(source, second.answer);
    var i :| FirstUnasked(queued, {{}, {v}}, i) && queued[i] == excluded;
    assert queued[0] == before[0] && queued[1] == before[1];
    if 1 < |spares| {
      assert queued[2] == before[2] == {spares[1]};
      SingleIsNew(spares[1], v);
    } else if 2 < |queued| {
      SingleIsNew(v, others[0]);
    }
    NextIsFirst(queued, {{}, {v}}, 2, i);
  }

  /** Whatever the solver answers: at most the whole problem, then the problem without the first vehicle that
      its answer can spare, then the one without the next such vehicle or without a second one. */
  lemma {:induction false} ProblemsAre(source: SolverInput, solver: Solver, max: nat, outcome: Outcome, trace: seq<Call>)
    requires source.Valid() && OutcomeOk(source, solver, max, outcome, trace)
    ensures |trace| <= 3 && (0 < |trace| ==> trace[0].excluded == {})
    ensures 1 < |trace| ==> Complete(trace[0].answer) && exists v: Id :: FirstSpare(source, trace[0].answer, v) && trace[1].excluded == {v}
    ensures 2 < |trace| ==> forall v: Id :: trace[1].excluded == {v} && v !in Drivers(trace[1].answer.routes) ==>
              || (exists w: Id :: SecondSpare(source, trace[0].answer, v, w) && trace[2].excluded == {w})
              || ((forall w :: CanSpare(source, trace[0].answer, w) ==> w == v)
                  && Complete(trace[1].answer) && exists w: Id :: FirstSpare(source, trace[1].answer, w) && trace[2].excluded == {v, w})
  {
    var required := Required(source);
    if 0 < |trace| {
      assert trace[..0] == [];
      assert NextInLine(required, trace[..0], trace[0].excluded);
      FirstProblem(required, trace[0].excluded);
    }
    if 1 < |trace| {
      assert trace[..1] == [trace[0]];
      assert NextInLine(required, trace[..1], trace[1].excluded);
      SecondProblem(source, trace[0], trace[1].excluded);
    }
    if 2 < |trace| {
      assert trace[..2] == [trace[0], trace[1]];
      assert NextInLine(required, trace[..2], trace[2].excluded);
      var v: Id :| FirstSpare(source, trace[0].answer, v) && trace[1].excluded == {v};
      forall u: Id | trace[1].excluded == {u} ensures u == v { assert u in {v}; }
      if v !in Drivers(trace[1].answer.routes) { ThirdProblem(source, trace[0], trace[1], v, trace[2].excluded); }
    }
  }

  // ----- when it ends, and what it returns -----

  /** The search asks nothing when a bound vehicle is missing.  Otherwise, short of three calls and of the
      wanted number of plans, it ends only when no vehicle that can be spared is left untried. */
  lemma {:induction false} SearchEnds(source: SolverInput, solver: Solver, max: nat, results: seq<SolverResult>, trace: seq<Call>)
    requires OutcomeOk(source, solver, max, Found(results), trace)
    ensures (exists v :: IsBound(source, v) && forall i :: 0 <= i < |source.vehicles| ==> source.vehicles[i].vehicleId != v) ==> trace == []
    ensures (forall v :: IsBound(source, v) ==> exists i :: 0 <= i < |source.vehicles| && source.vehicles[i].vehicleId == v)
            && |trace| < 3 && |results| < max ==>
              && trace != []
              && forall k, v: Id :: 0 <= k < |trace| && Complete(trace[k].answer) && CanSpare(source, trace[k].answer, v) ==>
                   exists j :: 0 <= j < |trace| && trace[j].excluded == trace[k].excluded + {v}
  {
    forall v: Id ensures v in Required(source) <==> IsBound(source, v) { RequiredIff(source, v); }
    forall v: Id ensures v in VehicleIds(source) <==> exists i :: 0 <= i < |source.vehicles| && source.vehicles[i].vehicleId == v { }
    if Required(source) <= VehicleIds(source) && |trace| < 3 && |results| < max {
      forall k, v: Id | 0 <= k < |trace| && Complete(trace[k].answer) && CanSpare(source, trace[k].answer, v)
        ensures exists j :: 0 <= j < |trace| && trace[j].excluded == trace[k].excluded + {v}
      {
        DrivesIff(trace[k].answer, v);
        assert Tried(trace, Required(source), k, v);
      }
    }
  }

  lemma {:induction false} DrivesIff(answer: SolverResult, v: Id)
    ensures Drives(answer.routes, v) <==> v in Drivers(answer.routes)
  {
  }

  /** Call k answers with every order on a route, and no earlier such answer is the same plan. */
  ghost predicate NewPlanAt(trace: seq<Call>, k: nat) {
    && k < |trace| && trace[k].answer.status == Feasible && trace[k].answer.unassigned == []
    && forall j :: 0 <= j < k && trace[j].answer.status == Feasible && trace[j].answer.unassigned == [] ==>
         Signature(trace[j].answer.routes) != Signature(trace[k].answer.routes)
  }

  ghost predicate NewPlans(trace: seq<Call>, at: seq<nat>) {
    (forall k: nat :: k in at <==> NewPlanAt(trace, k)) && forall i, j :: 0 <= i < j < |at| ==> at[i] < at[j]
  }

  ghost predicate AnswersAt(trace: seq<Call>, results: seq<SolverResult>, at: seq<nat>) {
    |results| == |at| && forall i :: 0 <= i < |at| ==> at[i] < |trace| && results[i] == trace[at[i]].answer
  }

  /** The results are the answers that are new plans, in the order of the calls. */
  lemma {:induction false} ResultsTell(trace: seq<Call>) returns (at: seq<nat>)
    ensures NewPlans(trace, at) && AnswersAt(trace, FirstOfEach(trace), at)
  {
    if trace == [] {
      at := [];
    } else {
      var n := |trace| - 1;
      var before := ResultsTell(trace[..n]);
      NewPlanIff(trace[..n], trace[n], before);
      at := before + if NewPlanAt(trace, n) then [n] else [];
      assert trace == trace[..n] + [trace[n]];
      NewPlansSnoc(trace, before);
    }
  }

  lemma {:induction false} NewPlanIff(front: seq<Call>, last: Call, before: seq<nat>)
    requires NewPlans(front, before) && AnswersAt(front, FirstOfEach(front), before)
    ensures NewPlanAt(front + [last], |front|) <==> Complete(last.answer) && Signature(last.answer.routes) !in Signatures(FirstOfEach(front))
  {
    var trace, results := front + [last], FirstOfEach(front);
    forall i | 0 <= i < |results| ensures NewPlanAt(front, before[i]) && trace[before[i]] == front[before[i]] {
      assert before[i] in before;
    }
    forall j | 0 <= j < |front| && Complete(front[j].answer) ensures Signature(front[j].answer.routes) in Signatures(results) {
      PlanIsListed(front, before, j);
    }
    if Signature(last.answer.routes) in Signatures(results) {
      var i :| 0 <= i < |results| && Signature(results[i].routes) == Signature(last.answer.routes);
      assert trace[before[i]].answer == results[i];
    }
    assert forall j :: 0 <= j < |front| ==> trace[j] == front[j];
  }

  lemma {:induction false} PlanIsListed(front: seq<Call>, before: seq<nat>, j: nat)
    requires NewPlans(front, before) && AnswersAt(front, FirstOfEach(front), before) && j < |front| && Complete(front[j].answer)
    ensures Signature(front[j].answer.routes) in Signatures(FirstOfEach(front))
  {
    if NewPlanAt(front, j) {
      assert j in before;
      var i :| 0 <= i < |before| && before[i] == j;
      assert FirstOfEach(front)[i] == front[j].answer;
    } else {
      var k :| 0 <= k < j && Complete(front[k].answer) && Signature(front[k].answer.routes) == Signature(front[j].answer.routes);
      PlanIsListed(front, before, k);
    }
  }

  lemma {:induction false} NewPlansSnoc(trace: seq<Call>, before: seq<nat>)
    requires trace != [] && NewPlans(trace[..|trace| - 1], before)
    ensures var n := |trace| - 1; NewPlans(trace, before + if NewPlanAt(trace, n) then [n] else [])
  {
    var n := |trace| - 1;
    var front, at := trace[..n], before + if NewPlanAt(trace, n) then [n] else [];
    forall k: nat | k < n ensures NewPlanAt(trace, k) <==> NewPlanAt(front, k) {
      assert forall j :: 0 <= j <= k ==> trace[j] == front[j];
    }
    forall i | 0 <= i < |before| ensures before[i] < n { assert before[i] in before; }
    forall k: nat ensures k in at <==> NewPlanAt(trace, k) {
      assert k in at <==> k in before || (k == n && NewPlanAt(trace, n));
    }
  }
}

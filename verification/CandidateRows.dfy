/** The rows of a candidate, told from the base routes, the targets and the solver routes alone. */
module CandidateRows {
  import opened Ordering
  import opened Domain
  import opened Optimization
  import opened Finalizer
  import opened Candidate
  import opened CandidateLaws
  import opened CandidateReview

  // ----- what a row is made from -----

  /** The solver route of a vehicle; a later one would win. */
  ghost predicate GetsRoute(routes: seq<SolverRoute>, v: Id, s: int) {
    0 <= s < |routes| && routes[s].vehicleId == v && forall j :: s < j < |routes| ==> routes[j].vehicleId != v
  }

  ghost predicate GetsNone(routes: seq<SolverRoute>, v: Id) {
    forall s :: 0 <= s < |routes| ==> routes[s].vehicleId != v
  }

  ghost predicate IsTarget(c: Recovery, o: Id) {
    exists i :: 0 <= i < |c.targets| && c.targets[i].orderId == o
  }

  /** The target row of an order; a later one would win. */
  ghost predicate TargetIs(c: Recovery, o: Id, i: int) {
    0 <= i < |c.targets| && c.targets[i].orderId == o && forall j :: i < j < |c.targets| ==> c.targets[j].orderId != o
  }

  ghost predicate VehicleFactIs(c: Recovery, v: Id, i: int) {
    0 <= i < |c.vehicles| && c.vehicles[i].vehicleId == v && forall j :: i < j < |c.vehicles| ==> c.vehicles[j].vehicleId != v
  }

  ghost predicate LosesTargets(c: Recovery, base: Route) {
    exists i :: 0 <= i < |c.targets| && c.targets[i].originalRoute == Some(base.id)
  }

  /** A route that loses targets loses their open stops. */
  ghost predicate Keeps(c: Recovery, base: Route, b: int) {
    0 <= b < |base.stops| && !(LosesTargets(c, base) && IsTarget(c, base.stops[b].orderId) && base.stops[b].status != Completed)
  }

  datatype Source = FromBase(r: nat) | FromSolver(s: nat)

  /** A base route that keeps or gets something, or a solver route of a vehicle without a base route. */
  ghost predicate IsSource(c: Recovery, routes: seq<SolverRoute>, x: Source) {
    match x
    case FromBase(r) => r < |c.routes| && ((exists b :: Keeps(c, c.routes[r], b)) || exists s :: GetsRoute(routes, c.routes[r].vehicleId, s))
    case FromSolver(s) => s < |routes| && forall r :: 0 <= r < |c.routes| ==> c.routes[r].vehicleId != routes[s].vehicleId
  }

  predicate Earlier(x: Source, y: Source) {
    match x
    case FromBase(r) => y.FromSolver? || r < y.r
    case FromSolver(s) => y.FromSolver? && s < y.s
  }

  /** All of them, base routes first. */
  ghost predicate Lists(c: Recovery, routes: seq<SolverRoute>, sources: seq<Source>) {
    && (forall x :: x in sources <==> IsSource(c, routes, x))
    && forall i, j :: 0 <= i < j < |sources| ==> Earlier(sources[i], sources[j])
  }

  // ----- the stops of a row -----

  /** The base stops that are kept, in their order. */
  ghost predicate KeptStops(c: Recovery, base: Route, kept: seq<nat>) {
    && (forall b: nat :: b in kept <==> Keeps(c, base, b)) && forall i, j :: 0 <= i < j < |kept| ==> kept[i] < kept[j]
  }

  /** Kept stop j is the last one before kept stop i with this id. */
  ghost predicate CopiedBefore(base: Route, kept: seq<nat>, i: nat, p: Id, j: int)
    requires i <= |kept| && forall k :: 0 <= k < |kept| ==> kept[k] < |base.stops|
  {
    0 <= j < i && base.stops[kept[j]].id == p && forall l :: j < l < i ==> base.stops[kept[l]].id != p
  }

  /** Row stop i copies kept stop i: only the row, its number and the stop it names are new, and it names the
      copy of the stop that was named. */
  ghost predicate CopiesStop(base: Route, row: Route, kept: seq<nat>, i: nat)
    requires i < |kept| && i < |row.stops| && forall k :: 0 <= k < |kept| ==> kept[k] < |base.stops|
  {
    var was, now := base.stops[kept[i]], row.stops[i];
    && now == was.(id := now.id, routeId := row.id, sequenceNo := i + 1, precedence := now.precedence)
    && match was.precedence
       case None => now.precedence == None
       case Some(p) =>
         && ((forall j :: !CopiedBefore(base, kept, i, p, j)) ==> now.precedence == None)
         && forall j :: CopiedBefore(base, kept, i, p, j) && j < |row.stops| ==> now.precedence == Some(row.stops[j].id)
  }

  /** The last stop before row stop i that takes goods of the order on. */
  ghost predicate LoadsBefore(row: Route, o: Id, i: int, q: int) {
    && 0 <= q < i <= |row.stops| && row.stops[q].orderId == o && row.stops[q].kind != Delivery
    && forall j :: q < j < i ==> row.stops[j].orderId != o || row.stops[j].kind == Delivery
  }

  /** Row stop i carries out a stop of the solver for its target. */
  ghost predicate CarriesOut(c: Recovery, stop: SolverStop, t: Target, row: Route, i: nat)
    requires i < |row.stops|
  {
    var now := row.stops[i];
    && now.routeId == row.id && now.sequenceNo == i + 1 && now.status == Planned
    && now.orderId == stop.orderId && now.locationId == stop.locationId && now.kind == stop.kind
    && now.plannedArrival == c.now + stop.arrival && now.plannedDeparture == c.now + stop.departure
    && now.actualArrival == None && now.actualDeparture == None
    && now.service == stop.service && now.demand == t.demand
    && match stop.kind
       case Pickup => now.incident == None && now.windowStart == Some(t.readyAt) && now.windowEnd == None && now.precedence == None
       case Handover => now.incident == Some(c.incidentId) && now.windowStart == Some(c.now) && now.windowEnd == None && now.precedence == None
       case Delivery =>
         && now.incident == None && now.windowStart == Some(t.windowStart) && now.windowEnd == Some(t.windowEnd)
         && exists q :: LoadsBefore(row, stop.orderId, i, q) && now.precedence == Some(row.stops[q].id)
  }

  ghost predicate DistinctStops(row: Route) {
    forall i, j :: 0 <= i < j < |row.stops| ==> row.stops[i].id != row.stops[j].id
  }

  ghost predicate CopiesAll(base: Route, row: Route, kept: seq<nat>) {
    && |kept| <= |row.stops| && (forall k :: 0 <= k < |kept| ==> kept[k] < |base.stops|)
    && forall i :: 0 <= i < |kept| ==> CopiesStop(base, row, kept, i)
  }

  ghost predicate CarriesOutAll(c: Recovery, added: seq<SolverStop>, row: Route, first: nat) {
    && |row.stops| == first + |added|
    && forall m, i :: 0 <= m < |added| && TargetIs(c, added[m].orderId, i) ==> CarriesOut(c, added[m], c.targets[i], row, first + m)
  }

  // ----- the columns of a row -----

  ghost predicate HasRoad(f: Frame, v: Id) {
    f.roads.Some? && v in f.roads.value
  }

  /** Where and when the route ends, and how long it takes. */
  ghost predicate EndIs(f: Frame, routes: seq<SolverRoute>, base: Route, row: Route) {
    var none := GetsNone(routes, base.vehicleId);
    if none && !LosesTargets(f.c, base) then
      row.endLocation == base.endLocation && row.plannedEnd == base.plannedEnd && row.duration == base.duration
    else
      && row.duration == row.plannedEnd - base.plannedStart
      && (forall s :: GetsRoute(routes, base.vehicleId, s) && routes[s].stops != [] ==>
           var last := routes[s].stops[|routes[s].stops| - 1];
           row.endLocation == last.locationId && row.plannedEnd == f.c.now + last.departure)
      && (none || (exists s :: GetsRoute(routes, base.vehicleId, s) && routes[s].stops == []) ==>
           && row.plannedEnd == f.c.now
           && if f.c.brokenRoute == Some(base.id) && f.c.incidentLocation.Some? then row.endLocation == f.c.incidentLocation.value
              else row.stops != [] && row.endLocation == row.stops[|row.stops| - 1].locationId)
  }

  /** Unless the vehicle gets a new route, a route that loses targets is over. */
  ghost predicate BaseColumns(f: Frame, routes: seq<SolverRoute>, base: Route, row: Route) {
    var v := base.vehicleId;
    var none := GetsNone(routes, v);
    && row.planId == f.planId && row.vehicleId == v && row.driverId == base.driverId && row.assignmentId == base.assignmentId
    && row.startLocation == base.startLocation && row.plannedStart == base.plannedStart && row.actualStart == base.actualStart
    && (row.status == RouteCompleted <==> base.status == RouteCompleted || (none && LosesTargets(f.c, base)))
    && (row.status != RouteCompleted ==> row.status == base.status)
    && row.actualEnd == (if none then base.actualEnd else None)
    && (HasRoad(f, v) ==> row.distance == f.roads.value[v])
    && (!HasRoad(f, v) && none ==> row.distance == base.distance)
    && (forall s :: !HasRoad(f, v) && GetsRoute(routes, v, s) ==> row.distance == routes[s].distance)
    && (forall i :: VehicleFactIs(f.c, v, i) ==> row.capacity == f.c.vehicles[i].capacity)
    && ((forall i :: !VehicleFactIs(f.c, v, i)) ==> row.capacity == base.capacity)
    && EndIs(f, routes, base, row)
  }

  ghost predicate NewColumns(f: Frame, solver: SolverRoute, v: VehicleFact, row: Route) {
    && solver.stops != []
    && var last := solver.stops[|solver.stops| - 1];
       && row.planId == f.planId && row.vehicleId == v.vehicleId && row.driverId == v.driverId && row.assignmentId == v.assignmentId
       && row.status == RoutePlanned && row.actualStart == None && row.actualEnd == None
       && row.startLocation == v.start && row.endLocation == last.locationId
       && row.plannedStart == v.from && row.plannedEnd == f.c.now + last.departure && row.duration == row.plannedEnd - v.from
       && row.distance == (if HasRoad(f, solver.vehicleId) then f.roads.value[solver.vehicleId] else solver.distance)
       && row.capacity == v.capacity
  }

  /** The row of a base route has the stops it keeps, then those of the new route of its vehicle. */
  ghost predicate StopsFrom(c: Recovery, routes: seq<SolverRoute>, base: Route, row: Route, kept: seq<nat>) {
    && KeptStops(c, base, kept) && CopiesAll(base, row, kept)
    && (GetsNone(routes, base.vehicleId) ==> |row.stops| == |kept|)
    && forall s :: GetsRoute(routes, base.vehicleId, s) ==> CarriesOutAll(c, routes[s].stops, row, |kept|)
  }

  /** A row of the candidate. */
  ghost predicate RowTells(f: Frame, routes: seq<SolverRoute>, x: Source, row: Route)
    requires IsSource(f.c, routes, x)
  {
    && DistinctStops(row)
    && match x
       case FromBase(r) =>
         var base := f.c.routes[r];
         BaseColumns(f, routes, base, row) && exists kept :: StopsFrom(f.c, routes, base, row, kept)
       case FromSolver(s) =>
         && (exists i :: VehicleFactIs(f.c, routes[s].vehicleId, i) && NewColumns(f, routes[s], f.c.vehicles[i], row))
         && CarriesOutAll(f.c, routes[s].stops, row, 0)
  }

  // ----- dictionaries and rows -----

  lemma {:induction false} RoutesByVehicleIff(routes: seq<SolverRoute>, v: Id)
    ensures v !in RoutesByVehicle(routes) <==> GetsNone(routes, v)
    ensures forall s :: GetsRoute(routes, v, s) ==> v in RoutesByVehicle(routes) && RoutesByVehicle(routes)[v] == routes[s]
    ensures v in RoutesByVehicle(routes) ==> exists s :: GetsRoute(routes, v, s)
  {
    if routes != [] {
      var front, last := routes[..|routes| - 1], routes[|routes| - 1];
      RoutesByVehicleIff(front, v);
      if last.vehicleId == v {
        assert GetsRoute(routes, v, |routes| - 1);
      } else {
        forall s ensures GetsRoute(routes, v, s) <==> GetsRoute(front, v, s) { }
      }
    }
  }

  ghost predicate LastTarget(targets: seq<Target>, o: Id, i: int) {
    0 <= i < |targets| && targets[i].orderId == o && forall j :: i < j < |targets| ==> targets[j].orderId != o
  }

  lemma {:induction false} TargetsByIdIff(targets: seq<Target>, o: Id)
    ensures o in TargetsById(targets) <==> exists i :: LastTarget(targets, o, i)
    ensures forall i :: LastTarget(targets, o, i) ==> o in TargetsById(targets) && TargetsById(targets)[o] == targets[i]
    ensures (exists i :: 0 <= i < |targets| && targets[i].orderId == o) ==> exists i :: LastTarget(targets, o, i)
  {
    if targets != [] {
      var front, last := targets[..|targets| - 1], targets[|targets| - 1];
      TargetsByIdIff(front, o);
      if last.orderId == o {
        assert LastTarget(targets, o, |targets| - 1);
      } else {
        forall i ensures LastTarget(targets, o, i) <==> LastTarget(front, o, i) { }
        if i :| 0 <= i < |targets| && targets[i].orderId == o { assert front[i].orderId == o; }
      }
    }
  }

  lemma {:induction false} TargetIsIff(c: Recovery, o: Id)
    ensures o in TargetsById(c.targets) <==> IsTarget(c, o)
    ensures forall i :: TargetIs(c, o, i) ==> o in TargetsById(c.targets) && TargetsById(c.targets)[o] == c.targets[i]
    ensures o in TargetsById(c.targets) ==> exists i :: TargetIs(c, o, i)
  {
    TargetsByIdIff(c.targets, o);
    forall i ensures TargetIs(c, o, i) <==> LastTarget(c.targets, o, i) { }
  }

  ghost predicate LastFact(vehicles: seq<VehicleFact>, v: Id, i: int) {
    0 <= i < |vehicles| && vehicles[i].vehicleId == v && forall j :: i < j < |vehicles| ==> vehicles[j].vehicleId != v
  }

  lemma {:induction false} FactsByIdIff(vehicles: seq<VehicleFact>, v: Id)
    ensures v in VehicleFactsById(vehicles) <==> exists i :: LastFact(vehicles, v, i)
    ensures forall i :: LastFact(vehicles, v, i) ==> v in VehicleFactsById(vehicles) && VehicleFactsById(vehicles)[v] == vehicles[i]
  {
    if vehicles != [] {
      var front, last := vehicles[..|vehicles| - 1], vehicles[|vehicles| - 1];
      FactsByIdIff(front, v);
      if last.vehicleId == v {
        assert LastFact(vehicles, v, |vehicles| - 1);
      } else {
        forall i ensures LastFact(vehicles, v, i) <==> LastFact(front, v, i) { }
      }
    }
  }

  lemma {:induction false} VehicleFactIff(c: Recovery, v: Id)
    ensures v in VehicleFactsById(c.vehicles) <==> exists i :: VehicleFactIs(c, v, i)
    ensures forall i :: VehicleFactIs(c, v, i) ==> v in VehicleFactsById(c.vehicles) && VehicleFactsById(c.vehicles)[v] == c.vehicles[i]
  {
    FactsByIdIff(c.vehicles, v);
    forall i ensures VehicleFactIs(c, v, i) <==> LastFact(c.vehicles, v, i) { }
  }

  // ----- the kept stops -----

  function KeptUpTo(stops: seq<Stop>, lost: set<Id>, n: nat): seq<nat>
    requires n <= |stops|
  {
    if n == 0 then []
    else KeptUpTo(stops, lost, n - 1) + if Survives(stops[n - 1], lost) then [n - 1] else []
  }

  lemma {:induction false} KeptUpToLists(stops: seq<Stop>, lost: set<Id>, n: nat)
    requires n <= |stops|
    ensures var kept := KeptUpTo(stops, lost, n);
            && (forall b: nat :: b in kept <==> b < n && Survives(stops[b], lost))
            && (forall i :: 0 <= i < |kept| ==> kept[i] < n)
            && (forall i, j :: 0 <= i < j < |kept| ==> kept[i] < kept[j])
  {
    if 0 < n { KeptUpToLists(stops, lost, n - 1); }
  }

  lemma {:induction false} KeptUpToSurvive(stops: seq<Stop>, lost: set<Id>, n: nat)
    requires n <= |stops|
    ensures var kept := KeptUpTo(stops, lost, n);
            && |kept| == |Surviving(stops[..n], lost)|
            && forall i :: 0 <= i < |kept| ==> kept[i] < n && Surviving(stops[..n], lost)[i] == stops[kept[i]]
  {
    if 0 < n {
      KeptUpToSurvive(stops, lost, n - 1);
      SurvivingOneMore(stops, lost, n - 1);
    } else {
      assert stops[..0] == [];
    }
  }

  lemma {:induction false} KeepsIff(c: Recovery, base: Route, b: nat)
    requires b < |base.stops|
    ensures Keeps(c, base, b) <==> Survives(base.stops[b], Lost(base, TargetsById(c.targets).Keys, RebuiltIds(c.targets)))
  {
    LosesIff(c, base);
    TargetIsIff(c, base.stops[b].orderId);
  }

  /** The stops a route keeps are the stops kept. */
  lemma {:induction false} KeptAre(f: Frame, job: Job, base: Route) returns (kept: seq<nat>)
    requires job.base == Some(base)
    ensures KeptStops(f.c, base, kept) && |kept| == |f.Kept(job)|
    ensures forall i :: 0 <= i < |kept| ==> kept[i] < |base.stops| && f.Kept(job)[i] == base.stops[kept[i]]
  {
    var lost := Lost(base, TargetsById(f.c.targets).Keys, RebuiltIds(f.c.targets));
    PreservedSurvive(base, TargetsById(f.c.targets).Keys, RebuiltIds(f.c.targets));
    kept := KeptUpTo(base.stops, lost, |base.stops|);
    KeptUpToAll(base.stops, lost);
    KeptUpToAre(f.c, base);
  }

  lemma {:induction false} KeptUpToAll(stops: seq<Stop>, lost: set<Id>)
    ensures var kept := KeptUpTo(stops, lost, |stops|);
            && |kept| == |Surviving(stops, lost)|
            && forall i :: 0 <= i < |kept| ==> kept[i] < |stops| && Surviving(stops, lost)[i] == stops[kept[i]]
  {
    KeptUpToSurvive(stops, lost, |stops|);
    assert stops[..|stops|] == stops;
  }

  lemma {:induction false} KeptUpToAre(c: Recovery, base: Route)
    ensures KeptStops(c, base, KeptUpTo(base.stops, Lost(base, TargetsById(c.targets).Keys, RebuiltIds(c.targets)), |base.stops|))
  {
    var lost := Lost(base, TargetsById(c.targets).Keys, RebuiltIds(c.targets));
    KeptUpToLists(base.stops, lost, |base.stops|);
    forall b: nat ensures b in KeptUpTo(base.stops, lost, |base.stops|) <==> Keeps(c, base, b) {
      if b < |base.stops| { KeepsIff(c, base, b); }
    }
  }

  lemma {:induction false} LosesIff(c: Recovery, base: Route)
    ensures base.id in RebuiltIds(c.targets) <==> LosesTargets(c, base)
  {
    if LosesTargets(c, base) {
      var i :| 0 <= i < |c.targets| && c.targets[i].originalRoute == Some(base.id);
      assert c.targets[i].originalRoute.value == base.id;
    }
  }

  // ----- the rows of the stops -----

  ghost predicate LastWithId(preserved: seq<Stop>, n: nat, p: Id, j: int)
    requires n <= |preserved|
  {
    0 <= j < n && preserved[j].id == p && forall l :: j < l < n ==> preserved[l].id != p
  }

  lemma {:induction false} CopiedIdIs(preserved: seq<Stop>, first: Id, n: nat, p: Id) returns (j: int)
    requires n <= |preserved|
    ensures if p in CopiedIds(preserved, first, n) then LastWithId(preserved, n, p, j) && CopiedIds(preserved, first, n)[p] == first + j
            else forall i :: !LastWithId(preserved, n, p, i)
  {
    if n == 0 {
      j := 0;
    } else if preserved[n - 1].id == p {
      j := n - 1;
    } else {
      j := CopiedIdIs(preserved, first, n - 1, p);
      forall i ensures LastWithId(preserved, n, p, i) <==> LastWithId(preserved, n - 1, p, i) { }
    }
  }

  /** The row of a kept stop. */
  lemma {:induction false} CopyTells(f: Frame, job: Job, base: Route, row: Route, kept: seq<nat>, i: nat)
    requires RowOf(f, job, row) && i < |kept| == |f.Kept(job)|
    requires forall k :: 0 <= k < |kept| ==> kept[k] < |base.stops| && f.Kept(job)[k] == base.stops[kept[k]]
    ensures |row.stops| == |f.Kept(job)| + |f.New(job)| && CopiesStop(base, row, kept, i)
  {
    var s := f.SpliceOf(job);
    CopyAt(s.preserved, row.id, |s.preserved|, i);
    assert row.stops[i] == Copies(s.preserved, row.id, |s.preserved|)[i];
    if base.stops[kept[i]].precedence.Some? {
      NamedCopy(f, job, base, row, kept, i, base.stops[kept[i]].precedence.value);
    }
  }

  lemma {:induction false} NamedCopy(f: Frame, job: Job, base: Route, row: Route, kept: seq<nat>, i: nat, p: Id)
    requires RowOf(f, job, row) && i < |kept| == |f.Kept(job)| && |row.stops| == |f.Kept(job)| + |f.New(job)|
    requires forall k :: 0 <= k < |kept| ==> kept[k] < |base.stops| && f.Kept(job)[k] == base.stops[kept[k]]
    ensures var named := Renamed(CopiedIds(f.Kept(job), row.id + 1, i), Some(p));
            && ((forall j :: !CopiedBefore(base, kept, i, p, j)) ==> named == None)
            && forall j :: CopiedBefore(base, kept, i, p, j) ==> named == Some(row.stops[j].id)
  {
    var was := CopiedIdIs(f.Kept(job), row.id + 1, i, p);
    forall j ensures CopiedBefore(base, kept, i, p, j) <==> LastWithId(f.Kept(job), i, p, j) { }
    forall j | CopiedBefore(base, kept, i, p, j) ensures j == was && row.stops[j].id == row.id + 1 + j {
      RowAt(f.SpliceOf(job), row.id, j);
    }
  }

  /** The last of the first n copies and m new stops that takes goods of the order on. */
  ghost predicate LastOrigin(s: Splice, k: nat, o: Id, q: int)
    requires k <= |s.preserved| + |s.added|
  {
    && 0 <= q < k && OrderAt(s, q) == o && KindAt(s, q) != Delivery
    && forall j :: q < j < k ==> OrderAt(s, j) != o || KindAt(s, j) == Delivery
  }

  lemma {:induction false} OriginIdIsLast(s: Splice, first: Id, n: nat, m: nat, o: Id) returns (q: nat)
    requires n <= |s.preserved| && m <= |s.added| && (0 < m ==> n == |s.preserved|)
    requires o in OriginIds(s.preserved, s.added, first, n, m)
    ensures LastOrigin(s, n + m, o, q) && OriginIds(s.preserved, s.added, first, n, m)[o] == first + q
    decreases m, n
  {
    OneMoreOrigin(s, n + m - 1, o);
    if 0 < m {
      q := n + m - 1;
      if s.added[m - 1].kind == Delivery || s.added[m - 1].orderId != o { q := OriginIdIsLast(s, first, n, m - 1, o); }
    } else {
      q := n - 1;
      if s.preserved[n - 1].kind == Delivery || s.preserved[n - 1].orderId != o { q := OriginIdIsLast(s, first, n - 1, 0, o); }
    }
  }

  lemma {:induction false} OneMoreOrigin(s: Splice, k: nat, o: Id)
    requires k < |s.preserved| + |s.added|
    ensures OrderAt(s, k) == o && KindAt(s, k) != Delivery ==> LastOrigin(s, k + 1, o, k)
    ensures !(OrderAt(s, k) == o && KindAt(s, k) != Delivery) ==> forall q :: LastOrigin(s, k, o, q) ==> LastOrigin(s, k + 1, o, q)
  {
  }

  lemma {:induction false} LoadsBeforeIff(f: Frame, job: Job, row: Route, o: Id, k: nat, q: nat)
    requires RowOf(f, job, row) && k <= |f.Kept(job)| + |f.New(job)| && LastOrigin(f.SpliceOf(job), k, o, q)
    ensures |row.stops| == |f.Kept(job)| + |f.New(job)| && LoadsBefore(row, o, k, q) && row.stops[q].id == row.id + 1 + q
  {
    var s := f.SpliceOf(job);
    RowAt(s, row.id, q);
    forall j | q < j < k ensures row.stops[j].orderId != o || row.stops[j].kind == Delivery {
      RowAt(s, row.id, j);
    }
  }

  lemma {:induction false} FreshNamesOrigin(f: Frame, job: Job, row: Route, m: nat)
    requires RowOf(f, job, row) && f.SpliceOf(job).Ok() && m < |f.New(job)| && f.New(job)[m].kind == Delivery
    ensures var s := f.SpliceOf(job); var o, k := s.added[m].orderId, |f.Kept(job)| + m;
            && |row.stops| == |f.Kept(job)| + |f.New(job)|
            && exists q :: LoadsBefore(row, o, k, q) && FreshPrecedence(s.preserved, s.added, row.id + 1, m) == Some(row.stops[q].id)
  {
    var s, o := f.SpliceOf(job), f.New(job)[m].orderId;
    assert FreshOk(s.targets, s.preserved, s.added, m);
    OriginIdKeys(s.preserved, s.added, row.id + 1, |s.preserved|, m);
    var q := OriginIdIsLast(s, row.id + 1, |s.preserved|, m, o);
    LoadsBeforeIff(f, job, row, o, |f.Kept(job)| + m, q);
  }

  /** A delivery names the last stop before it that takes its goods on. */
  ghost predicate NamesOrigin(stop: SolverStop, row: Route, i: nat, precedence: Option<Id>) {
    if stop.kind == Delivery then exists q :: LoadsBefore(row, stop.orderId, i, q) && precedence == Some(row.stops[q].id)
    else precedence == None
  }

  lemma {:induction false} FreshNames(f: Frame, job: Job, row: Route, m: nat)
    requires RowOf(f, job, row) && f.SpliceOf(job).Ok() && m < |f.New(job)|
    ensures var s := f.SpliceOf(job);
            NamesOrigin(s.added[m], row, |f.Kept(job)| + m, FreshPrecedence(s.preserved, s.added, row.id + 1, m))
  {
    if f.New(job)[m].kind == Delivery { FreshNamesOrigin(f, job, row, m); }
  }

  lemma {:induction false} FreshRow(c: Recovery, stop: SolverStop, t: Target, row: Route, i: nat, precedence: Option<Id>)
    requires i < |row.stops|
    requires row.stops[i] == FreshStop(c.now, c.incidentId, t, row.id, row.id + 1 + i, i + 1, stop, precedence)
    requires NamesOrigin(stop, row, i, precedence)
    ensures CarriesOut(c, stop, t, row, i)
  {
  }

  lemma {:induction false} FreshIs(f: Frame, job: Job, row: Route, m: nat)
    requires RowOf(f, job, row) && m < |f.New(job)|
    ensures f.New(job)[m].orderId in TargetsById(f.c.targets) && |row.stops| == |f.Kept(job)| + |f.New(job)|
    ensures var s, stop, i := f.SpliceOf(job), f.New(job)[m], |f.Kept(job)| + m;
            row.stops[i] == FreshStop(f.c.now, f.c.incidentId, TargetsById(f.c.targets)[stop.orderId], row.id, row.id + 1 + i, i + 1, stop,
                                      FreshPrecedence(s.preserved, s.added, row.id + 1, m))
  {
    var s := f.SpliceOf(job);
    FreshAt(s, row.id, |s.added|, m);
    assert row.stops[|f.Kept(job)| + m] == s.FreshRows(row.id, |s.added|)[m];
  }

  /** The row of a new stop. */
  lemma {:induction false} FreshTells(f: Frame, job: Job, row: Route, m: nat, i: nat)
    requires RowOf(f, job, row) && f.SpliceOf(job).Ok() && m < |f.New(job)| && TargetIs(f.c, f.New(job)[m].orderId, i)
    ensures |row.stops| == |f.Kept(job)| + |f.New(job)|
    ensures CarriesOut(f.c, f.New(job)[m], f.c.targets[i], row, |f.Kept(job)| + m)
  {
    var s, stop := f.SpliceOf(job), f.New(job)[m];
    FreshIs(f, job, row, m);
    TargetIsIff(f.c, stop.orderId);
    FreshNames(f, job, row, m);
    FreshRow(f.c, stop, f.c.targets[i], row, |f.Kept(job)| + m, FreshPrecedence(s.preserved, s.added, row.id + 1, m));
  }

  // ----- the columns of a base route -----

  lemma {:induction false} JobIs(f: Frame, routes: seq<SolverRoute>, base: Route)
    ensures var job := BaseJob(base, RoutesByVehicle(routes));
            && job.base == Some(base) && (job.solver == None <==> GetsNone(routes, base.vehicleId))
            && (forall s :: GetsRoute(routes, base.vehicleId, s) ==> job.solver == Some(routes[s]))
            && (job.solver.Some? ==> exists s :: GetsRoute(routes, base.vehicleId, s))
  {
    RoutesByVehicleIff(routes, base.vehicleId);
  }

  lemma {:induction false} OnlyOneRoute(routes: seq<SolverRoute>, v: Id, s: int, t: int)
    requires GetsRoute(routes, v, s) && GetsRoute(routes, v, t)
    ensures s == t
  {
  }

  /** The row of a job that keeps or gets something. */
  ghost predicate IsWritten(f: Frame, job: Job, row: Route, no: nat) {
    f.Buildable(job) && row == f.Row(job, row.id, no)
  }

  lemma {:induction false} EndTells(f: Frame, routes: seq<SolverRoute>, base: Route, row: Route, no: nat)
    requires IsWritten(f, BaseJob(base, RoutesByVehicle(routes)), row, no)
    ensures EndIs(f, routes, base, row)
  {
    var job := BaseJob(base, RoutesByVehicle(routes));
    JobIs(f, routes, base);
    LosesIff(f.c, base);
    if job.solver.Some? {
      var s :| GetsRoute(routes, base.vehicleId, s);
      forall t | GetsRoute(routes, base.vehicleId, t) ensures t == s { OnlyOneRoute(routes, base.vehicleId, s, t); }
    }
    if f.New(job) == [] && !f.Unchanged(job) && !f.EndsAtIncident(job) {
      LastKeptIsLast(f, job, row, no);
    }
  }

  /** With nothing new, the last stop of the row is the copy of the last kept stop. */
  lemma {:induction false} LastKeptIsLast(f: Frame, job: Job, row: Route, no: nat)
    requires IsWritten(f, job, row, no) && f.New(job) == [] && f.Kept(job) != []
    ensures row.stops != [] && row.stops[|row.stops| - 1].locationId == f.Kept(job)[|f.Kept(job)| - 1].locationId
  {
    var n := |f.Kept(job)|;
    WrittenRow(f, job, row.id, no);
    CopyAt(f.Kept(job), row.id, n, n - 1);
    assert row.stops[n - 1] == Copies(f.Kept(job), row.id, n)[n - 1];
  }

  lemma {:induction false} ColumnsTell(f: Frame, routes: seq<SolverRoute>, base: Route, row: Route, no: nat)
    requires IsWritten(f, BaseJob(base, RoutesByVehicle(routes)), row, no)
    ensures BaseColumns(f, routes, base, row)
  {
    EndTells(f, routes, base, row, no);
    JobIs(f, routes, base);
    LosesIff(f.c, base);
    VehicleFactIff(f.c, base.vehicleId);
  }

  // ----- one row -----

  lemma {:induction false} StopsAreDistinct(f: Frame, job: Job, row: Route)
    requires RowOf(f, job, row)
    ensures DistinctStops(row)
  {
    StopsOfRow(f, job, row);
  }

  lemma {:induction false} CopiesTell(f: Frame, job: Job, base: Route, row: Route, kept: seq<nat>)
    requires RowOf(f, job, row) && |kept| == |f.Kept(job)|
    requires forall k :: 0 <= k < |kept| ==> kept[k] < |base.stops| && f.Kept(job)[k] == base.stops[kept[k]]
    ensures CopiesAll(base, row, kept)
  {
    assert |row.stops| == |f.Kept(job)| + |f.New(job)|;
    forall i | 0 <= i < |kept| ensures CopiesStop(base, row, kept, i) {
      CopyTells(f, job, base, row, kept, i);
    }
  }

  lemma {:induction false} NewStopsTell(f: Frame, job: Job, row: Route)
    requires RowOf(f, job, row) && f.SpliceOf(job).Ok()
    ensures CarriesOutAll(f.c, f.New(job), row, |f.Kept(job)|)
  {
    assert |row.stops| == |f.Kept(job)| + |f.New(job)|;
    forall m, i | 0 <= m < |f.New(job)| && TargetIs(f.c, f.New(job)[m].orderId, i)
      ensures CarriesOut(f.c, f.New(job)[m], f.c.targets[i], row, |f.Kept(job)| + m)
    {
      FreshTells(f, job, row, m, i);
    }
  }

  lemma {:induction false} StopsTell(f: Frame, routes: seq<SolverRoute>, base: Route, row: Route)
    requires var job := BaseJob(base, RoutesByVehicle(routes)); RowOf(f, job, row) && f.SpliceOf(job).Ok()
    ensures exists kept :: StopsFrom(f.c, routes, base, row, kept)
  {
    var job := BaseJob(base, RoutesByVehicle(routes));
    var kept := KeptAre(f, job, base);
    JobIs(f, routes, base);
    CopiesTell(f, job, base, row, kept);
    NewStopsTell(f, job, row);
    assert StopsFrom(f.c, routes, base, row, kept);
  }

  lemma {:induction false} BaseRowTells(f: Frame, routes: seq<SolverRoute>, r: nat, row: Route, no: nat)
    requires r < |f.c.routes| && IsSource(f.c, routes, FromBase(r))
    requires IsWritten(f, BaseJob(f.c.routes[r], RoutesByVehicle(routes)), row, no)
    ensures RowTells(f, routes, FromBase(r), row)
  {
    var job := BaseJob(f.c.routes[r], RoutesByVehicle(routes));
    WrittenRow(f, job, row.id, no);
    StopsAreDistinct(f, job, row);
    StopsTell(f, routes, f.c.routes[r], row);
    ColumnsTell(f, routes, f.c.routes[r], row, no);
  }

  lemma {:induction false} NewRowTells(f: Frame, routes: seq<SolverRoute>, s: nat, row: Route, no: nat)
    requires s < |routes| && IsSource(f.c, routes, FromSolver(s)) && IsWritten(f, Job(None, Some(routes[s])), row, no)
    ensures RowTells(f, routes, FromSolver(s), row)
  {
    var job := Job(None, Some(routes[s]));
    WrittenRow(f, job, row.id, no);
    StopsAreDistinct(f, job, row);
    VehicleFactIff(f.c, routes[s].vehicleId);
    var i :| VehicleFactIs(f.c, routes[s].vehicleId, i);
    assert NewColumns(f, routes[s], f.c.vehicles[i], row);
    forall m, k | 0 <= m < |routes[s].stops| && TargetIs(f.c, routes[s].stops[m].orderId, k)
      ensures CarriesOut(f.c, routes[s].stops[m], f.c.targets[k], row, m)
    {
      FreshTells(f, job, row, m, k);
    }
  }

  // ----- which rows -----

  function JobFor(f: Frame, routes: seq<SolverRoute>, x: Source): Job
    requires match x case FromBase(r) => r < |f.c.routes| case FromSolver(s) => s < |routes|
  {
    match x
    case FromBase(r) => BaseJob(f.c.routes[r], RoutesByVehicle(routes))
    case FromSolver(s) => Job(None, Some(routes[s]))
  }

  ghost function BaseSources(f: Frame, routes: seq<SolverRoute>, n: nat): seq<Source> {
    if n == 0 then [] else BaseSources(f, routes, n - 1) + Once(f, routes, FromBase(n - 1))
  }

  ghost function SolverSources(f: Frame, routes: seq<SolverRoute>, n: nat): seq<Source> {
    if n == 0 then [] else SolverSources(f, routes, n - 1) + Once(f, routes, FromSolver(n - 1))
  }

  ghost function Once(f: Frame, routes: seq<SolverRoute>, x: Source): seq<Source> {
    if IsSource(f.c, routes, x) then [x] else []
  }

  ghost function Sources(f: Frame, routes: seq<SolverRoute>): seq<Source> {
    BaseSources(f, routes, |f.c.routes|) + SolverSources(f, routes, |routes|)
  }

  lemma {:induction false} KeepsNothingIff(f: Frame, job: Job, base: Route)
    requires job.base == Some(base)
    ensures f.Kept(job) == [] <==> forall b :: !Keeps(f.c, base, b)
  {
    var kept := KeptAre(f, job, base);
    if b :| Keeps(f.c, base, b) { assert (b as nat) in kept; }
    if kept != [] { assert kept[0] in kept; }
  }

  lemma {:induction false} SkippedIff(f: Frame, routes: seq<SolverRoute>, r: nat)
    requires r < |f.c.routes|
    ensures f.Skipped(BaseJob(f.c.routes[r], RoutesByVehicle(routes))) <==> !IsSource(f.c, routes, FromBase(r))
  {
    var base := f.c.routes[r];
    JobIs(f, routes, base);
    KeepsNothingIff(f, BaseJob(base, RoutesByVehicle(routes)), base);
  }

  lemma {:induction false} LeftoverIff(f: Frame, routes: seq<SolverRoute>, s: nat)
    requires s < |routes|
    ensures routes[s].vehicleId in BaseVehicles(f.c.routes) <==> !IsSource(f.c, routes, FromSolver(s))
  {
  }

  /** The sources of one kind below n. */
  ghost predicate SourcesBelow(f: Frame, routes: seq<SolverRoute>, xs: seq<Source>, ofBase: bool, n: nat) {
    && (forall x :: x in xs <==> Below(x, ofBase, n) && IsSource(f.c, routes, x))
    && forall i, j :: 0 <= i < j < |xs| ==> Earlier(xs[i], xs[j])
  }

  predicate Below(x: Source, ofBase: bool, n: nat) {
    match x case FromBase(r) => ofBase && r < n case FromSolver(s) => !ofBase && s < n
  }

  lemma {:induction false} OneMoreSource(f: Frame, routes: seq<SolverRoute>, xs: seq<Source>, ofBase: bool, n: nat)
    requires SourcesBelow(f, routes, xs, ofBase, n)
    ensures SourcesBelow(f, routes, xs + Once(f, routes, if ofBase then FromBase(n) else FromSolver(n)), ofBase, n + 1)
  {
    var x := if ofBase then FromBase(n) else FromSolver(n);
    forall y ensures Below(y, ofBase, n + 1) <==> Below(y, ofBase, n) || y == x { }
    forall i | 0 <= i < |xs| ensures Earlier(xs[i], x) { assert xs[i] in xs; }
  }

  lemma {:induction false} SourcesAre(f: Frame, routes: seq<SolverRoute>, n: nat)
    ensures SourcesBelow(f, routes, BaseSources(f, routes, n), true, n)
    ensures SourcesBelow(f, routes, SolverSources(f, routes, n), false, n)
  {
    for k := 0 to n
      invariant SourcesBelow(f, routes, BaseSources(f, routes, k), true, k)
      invariant SourcesBelow(f, routes, SolverSources(f, routes, k), false, k)
    {
      OneMoreSource(f, routes, BaseSources(f, routes, k), true, k);
      OneMoreSource(f, routes, SolverSources(f, routes, k), false, k);
    }
  }

  lemma {:induction false} SourcesAreListed(f: Frame, routes: seq<SolverRoute>)
    ensures Lists(f.c, routes, Sources(f, routes))
  {
    var xs, ys := BaseSources(f, routes, |f.c.routes|), SolverSources(f, routes, |routes|);
    SourcesAre(f, routes, |f.c.routes|);
    SourcesAre(f, routes, |routes|);
    forall i, j | 0 <= i < |xs| && 0 <= j < |ys| ensures Earlier(xs[i], ys[j]) {
      assert xs[i] in xs && ys[j] in ys;
    }
  }

  ghost predicate RowsFrom(f: Frame, routes: seq<SolverRoute>, d: Draft, xs: seq<Source>) {
    d.Written? ==>
      && |d.rows| == |xs|
      && forall j :: 0 <= j < |xs| ==> RowFrom(f, routes, xs[j], d.rows[j], j + 1)
  }

  ghost predicate RowFrom(f: Frame, routes: seq<SolverRoute>, x: Source, row: Route, no: nat) {
    && (match x case FromBase(r) => r < |f.c.routes| case FromSolver(s) => s < |routes|)
    && IsWritten(f, JobFor(f, routes, x), row, no) && row.routeNo == no
  }

  lemma {:induction false} OneMoreRow(f: Frame, routes: seq<SolverRoute>, d: Draft, xs: seq<Source>, x: Source)
    requires RowsFrom(f, routes, d, xs) && match x case FromBase(r) => r < |f.c.routes| case FromSolver(s) => s < |routes|
    ensures RowsFrom(f, routes, WriteNext(f, d, JobFor(f, routes, x)), xs + [x])
  {
    if d.Written? && f.Buildable(JobFor(f, routes, x)) {
      WrittenRow(f, JobFor(f, routes, x), d.next, |d.rows| + 1);
    }
  }

  lemma {:induction false} BaseRowsFrom(f: Frame, routes: seq<SolverRoute>, first: Id, n: nat)
    requires n <= |f.c.routes|
    ensures RowsFrom(f, routes, BaseDraft(f, RoutesByVehicle(routes), first, n), BaseSources(f, routes, n))
  {
    var byVehicle := RoutesByVehicle(routes);
    var d: Draft, xs: seq<Source> := Written([], map[], first), [];
    for k := 0 to n
      invariant d == BaseDraft(f, byVehicle, first, k) && xs == BaseSources(f, routes, k) && RowsFrom(f, routes, d, xs)
    {
      d, xs := BaseStep(f, routes, first, k, d, xs);
    }
  }

  lemma {:induction false} BaseStep(f: Frame, routes: seq<SolverRoute>, first: Id, k: nat, d: Draft, xs: seq<Source>)
    returns (next: Draft, ys: seq<Source>)
    requires k < |f.c.routes| && d == BaseDraft(f, RoutesByVehicle(routes), first, k) && xs == BaseSources(f, routes, k)
    requires RowsFrom(f, routes, d, xs)
    ensures next == BaseDraft(f, RoutesByVehicle(routes), first, k + 1) && ys == BaseSources(f, routes, k + 1)
    ensures RowsFrom(f, routes, next, ys)
  {
    next, ys := WithBase(f, d, BaseJob(f.c.routes[k], RoutesByVehicle(routes))), xs + Once(f, routes, FromBase(k));
    NextBaseRow(f, routes, d, xs, k);
    BaseDraftOneMore(f, RoutesByVehicle(routes), first, k);
  }

  /** The draft after one more base route. */
  function WithBase(f: Frame, d: Draft, job: Job): Draft {
    if f.Skipped(job) then d else WriteNext(f, d, job)
  }

  lemma {:induction false} BaseDraftOneMore(f: Frame, byVehicle: map<Id, SolverRoute>, first: Id, k: nat)
    requires k < |f.c.routes|
    ensures BaseDraft(f, byVehicle, first, k + 1) == WithBase(f, BaseDraft(f, byVehicle, first, k), BaseJob(f.c.routes[k], byVehicle))
  {
  }

  lemma {:induction false} NextBaseRow(f: Frame, routes: seq<SolverRoute>, d: Draft, xs: seq<Source>, r: nat)
    requires r < |f.c.routes| && RowsFrom(f, routes, d, xs)
    ensures RowsFrom(f, routes, WithBase(f, d, BaseJob(f.c.routes[r], RoutesByVehicle(routes))), xs + Once(f, routes, FromBase(r)))
  {
    assert xs + [] == xs;
    SkippedIff(f, routes, r);
    OneMoreRow(f, routes, d, xs, FromBase(r));
  }

  /** The draft after one more solver route. */
  function WithSolver(f: Frame, d: Draft, solver: SolverRoute): Draft {
    if solver.vehicleId in BaseVehicles(f.c.routes) then d else WriteNext(f, d, Job(None, Some(solver)))
  }

  lemma {:induction false} NextSolverRow(f: Frame, routes: seq<SolverRoute>, d: Draft, xs: seq<Source>, s: nat)
    requires s < |routes| && RowsFrom(f, routes, d, xs)
    ensures RowsFrom(f, routes, WithSolver(f, d, routes[s]), xs + Once(f, routes, FromSolver(s)))
  {
    assert xs + [] == xs;
    LeftoverIff(f, routes, s);
    OneMoreRow(f, routes, d, xs, FromSolver(s));
  }

  lemma {:induction false} LeftoverOneMore(f: Frame, routes: seq<SolverRoute>, base: Draft, k: nat)
    requires k < |routes|
    ensures LeftoverDraft(f, routes, base, k + 1) == WithSolver(f, LeftoverDraft(f, routes, base, k), routes[k])
  {
  }

  lemma {:induction false} AllRowsFrom(f: Frame, routes: seq<SolverRoute>, base: Draft, n: nat)
    requires n <= |routes| && RowsFrom(f, routes, base, BaseSources(f, routes, |f.c.routes|))
    ensures RowsFrom(f, routes, LeftoverDraft(f, routes, base, n), BaseSources(f, routes, |f.c.routes|) + SolverSources(f, routes, n))
  {
    var bases := BaseSources(f, routes, |f.c.routes|);
    var d, xs := base, bases;
    assert bases + [] == bases;
    for k := 0 to n
      invariant d == LeftoverDraft(f, routes, base, k) && xs == bases + SolverSources(f, routes, k) && RowsFrom(f, routes, d, xs)
    {
      d, xs := SolverStep(f, routes, base, bases, k, d, xs);
    }
  }

  lemma {:induction false} SolverStep(f: Frame, routes: seq<SolverRoute>, base: Draft, bases: seq<Source>, k: nat, d: Draft, xs: seq<Source>)
    returns (next: Draft, ys: seq<Source>)
    requires k < |routes| && d == LeftoverDraft(f, routes, base, k) && xs == bases + SolverSources(f, routes, k) && RowsFrom(f, routes, d, xs)
    ensures next == LeftoverDraft(f, routes, base, k + 1) && ys == bases + SolverSources(f, routes, k + 1) && RowsFrom(f, routes, next, ys)
  {
    next, ys := WithSolver(f, d, routes[k]), xs + Once(f, routes, FromSolver(k));
    NextSolverRow(f, routes, d, xs, k);
    LeftoverOneMore(f, routes, base, k);
  }

  lemma {:induction false} SourceRowTells(f: Frame, routes: seq<SolverRoute>, x: Source, row: Route, no: nat)
    requires RowFrom(f, routes, x, row, no) && IsSource(f.c, routes, x)
    ensures RowTells(f, routes, x, row)
  {
    match x
    case FromBase(r) => BaseRowTells(f, routes, r, row, no);
    case FromSolver(s) => NewRowTells(f, routes, s, row, no);
  }

  /** The routes of a written candidate: one row for each base route that keeps or gets something and for
      each solver route of another vehicle, in this order, each with the columns and stops told above. */
  lemma {:induction false} RoutesTell(f: Frame, result: SolverResult, first: Id)
    requires FinalDraft(f, result, first).Written?
    ensures var rows, xs := FinalDraft(f, result, first).rows, Sources(f, result.routes);
            && Lists(f.c, result.routes, xs) && |rows| == |xs|
            && forall j :: 0 <= j < |rows| ==>
                 rows[j].routeNo == j + 1 && IsSource(f.c, result.routes, xs[j]) && RowTells(f, result.routes, xs[j], rows[j])
  {
    var rows, xs := FinalDraft(f, result, first).rows, Sources(f, result.routes);
    SourcesAreListed(f, result.routes);
    BaseRowsFrom(f, result.routes, first, |f.c.routes|);
    AllRowsFrom(f, result.routes, BaseDraft(f, RoutesByVehicle(result.routes), first, |f.c.routes|), |result.routes|);
    forall j | 0 <= j < |rows|
      ensures rows[j].routeNo == j + 1 && IsSource(f.c, result.routes, xs[j]) && RowTells(f, result.routes, xs[j], rows[j])
    {
      assert RowFrom(f, result.routes, xs[j], rows[j], j + 1);
      assert xs[j] in xs;
      SourceRowTells(f, result.routes, xs[j], rows[j], j + 1);
    }
  }

  // ----- memberships and the plan -----

  /** Unassigned entry j is the one of the order; a later one would win. */
  ghost predicate ReasonIs(unassigned: seq<SolverUnassigned>, o: Id, j: int) {
    0 <= j < |unassigned| && unassigned[j].orderId == o && forall l :: j < l < |unassigned| ==> unassigned[l].orderId != o
  }

  lemma {:induction false} ReasonsAre(unassigned: seq<SolverUnassigned>, o: Id)
    ensures o in ReasonByOrder(unassigned) ==> exists j :: ReasonIs(unassigned, o, j)
    ensures forall j :: ReasonIs(unassigned, o, j) ==> o in ReasonByOrder(unassigned) && ReasonByOrder(unassigned)[o] == unassigned[j].reason
  {
    if unassigned != [] {
      var front, last := unassigned[..|unassigned| - 1], unassigned[|unassigned| - 1];
      ReasonsAre(front, o);
      if last.orderId == o {
        assert ReasonIs(unassigned, o, |unassigned| - 1);
      } else {
        forall j ensures ReasonIs(unassigned, o, j) <==> ReasonIs(front, o, j) { }
      }
    }
  }

  /** The membership of a base member: on the last row with a stop of it, or unassigned for the solver's
      reason or, without one, for the reason it had. */
  ghost predicate MemberTells(rows: seq<Route>, unassigned: seq<SolverUnassigned>, was: Member, now: Membership) {
    && now.orderId == was.orderId
    && (forall j :: IsLast(rows, j, was.orderId) ==> now == OnRouteRow(was.orderId, rows[j].id))
    && ((forall j :: 0 <= j < |rows| ==> !HasStopOf(rows[j], was.orderId)) ==>
         && now.UnassignedRow?
         && (forall l :: ReasonIs(unassigned, was.orderId, l) ==> now.reason == unassigned[l].reason)
         && ((forall l :: !ReasonIs(unassigned, was.orderId, l)) ==> was.reason == Some(now.reason)))
  }

  lemma {:induction false} MembershipRowTells(rows: seq<Route>, routeByOrder: map<Id, Id>, unassigned: seq<SolverUnassigned>, was: Member)
    requires Tracks(rows, routeByOrder) && MemberOk(routeByOrder, ReasonByOrder(unassigned), was)
    ensures MemberTells(rows, unassigned, was, MembershipRow(routeByOrder, ReasonByOrder(unassigned), was))
  {
    ReasonsAre(unassigned, was.orderId);
    forall i, j | IsLast(rows, i, was.orderId) && IsLast(rows, j, was.orderId) ensures i == j { }
    if was.orderId in routeByOrder {
      var j :| IsLast(rows, j, was.orderId) && routeByOrder[was.orderId] == rows[j].id;
    }
  }

  lemma {:induction false} MembershipRowAt(routeByOrder: map<Id, Id>, reasons: map<Id, nat>, members: seq<Member>, n: nat, i: nat)
    requires i < n <= |members| && MembersOk(routeByOrder, reasons, members, n)
    ensures MemberOk(routeByOrder, reasons, members[i])
    ensures MembershipRows(routeByOrder, reasons, members, n)[i] == MembershipRow(routeByOrder, reasons, members[i])
  {
    if i < n - 1 { MembershipRowAt(routeByOrder, reasons, members, n - 1, i); }
  }

  function AssignedAt(rows: seq<Membership>, n: nat): set<nat>
    requires n <= |rows|
  {
    set i: nat | i < n && rows[i].OnRouteRow?
  }

  lemma {:induction false} CountsAre(rows: seq<Membership>)
    ensures AssignedCount(rows) == |AssignedAt(rows, |rows|)| && AssignedCount(rows) + UnassignedCount(rows) == |rows|
  {
    if rows == [] {
      assert AssignedAt(rows, 0) == {};
    } else {
      var front, n := rows[..|rows| - 1], |rows| - 1;
      CountsAre(front);
      assert AssignedAt(rows, |rows|) == AssignedAt(front, n) + if rows[n].OnRouteRow? then {n} else {};
    }
  }

  /** Running sums over the rows. */
  ghost predicate SumsAre(rows: seq<Route>, metres: seq<int>, seconds: seq<int>) {
    && |metres| == |seconds| == |rows| + 1 && metres[0] == 0 && seconds[0] == 0
    && forall j :: 0 <= j < |rows| ==> SumsAt(rows, metres, seconds, j)
  }

  ghost predicate SumsAt(rows: seq<Route>, metres: seq<int>, seconds: seq<int>, j: nat)
    requires j < |rows| && j + 1 < |metres| && j + 1 < |seconds|
  {
    metres[j + 1] == metres[j] + rows[j].distance && seconds[j + 1] == seconds[j] + rows[j].duration
  }

  lemma {:induction false} SumsTell(rows: seq<Route>, metres: seq<int>, seconds: seq<int>, n: nat)
    requires SumsAre(rows, metres, seconds) && n <= |rows|
    ensures metres[n] == SumDistance(rows[..n]) && seconds[n] == SumDuration(rows[..n])
  {
    if 0 < n {
      SumsTell(rows, metres, seconds, n - 1);
      assert SumsAt(rows, metres, seconds, n - 1) && rows[..n][..n - 1] == rows[..n - 1];
    } else {
      assert rows[..0] == [];
    }
  }

  /** The plan row: the next version of its base plan, with the totals and counts of its rows. */
  ghost predicate PlanTells(f: Frame, version: nat, plan: FullPlan) {
    && plan.row.id == f.planId && plan.row.group == f.c.group && plan.row.version == version
    && plan.row.parent == Some(f.c.basePlanId) && plan.row.status == PlanCandidate && plan.row.activatedAt == None
    && plan.row.vehicleCount == |plan.routes|
    && plan.row.assignedCount == |AssignedAt(plan.members, |plan.members|)|
    && plan.row.assignedCount + plan.row.unassignedCount == |plan.members|
    && forall metres, seconds :: SumsAre(plan.routes, metres, seconds) ==>
         plan.row.distance == metres[|plan.routes|] && plan.row.duration == seconds[|plan.routes|]
  }

  /** A candidate that is written: its plan, its memberships and its routes. */
  lemma {:induction false} CandidateTells(f: Frame, result: SolverResult, version: nat, first: Id)
    requires OneRoutePerVehicle(f.c.routes) && DistinctVehicles(result.routes) && CandidateOf(f, result, version, first).Some?
    ensures var plan := CandidateOf(f, result, version, first).value;
            && FinalDraft(f, result, first).Written? && plan.routes == FinalDraft(f, result, first).rows
            && PlanTells(f, version, plan) && |plan.members| == |f.c.members|
            && forall i :: 0 <= i < |f.c.members| ==> MemberTells(plan.routes, result.unassigned, f.c.members[i], plan.members[i])
  {
    var plan, d := CandidateOf(f, result, version, first).value, FinalDraft(f, result, first);
    FinalDraftOk(f, result, first);
    CountsAre(plan.members);
    forall metres, seconds | SumsAre(plan.routes, metres, seconds)
      ensures plan.row.distance == metres[|plan.routes|] && plan.row.duration == seconds[|plan.routes|]
    {
      SumsTell(plan.routes, metres, seconds, |plan.routes|);
      assert plan.routes[..|plan.routes|] == plan.routes;
    }
    forall i | 0 <= i < |f.c.members| ensures MemberTells(plan.routes, result.unassigned, f.c.members[i], plan.members[i]) {
      MembershipRowAt(d.routeByOrder, ReasonByOrder(result.unassigned), f.c.members, |f.c.members|, i);
      MembershipRowTells(d.rows, d.routeByOrder, result.unassigned, f.c.members[i]);
    }
  }
}

/** Road geometry: assembling OSRM legs into one line with an end index per waypoint, and
    the check of the reader that later walks along it. */
module RoadRoutes {
  import opened Ordering

  /** A longitude and a latitude in degrees. */
  datatype Point = Point(lon: real, lat: real)

  /** What OSRM returns: a leg per pair of neighbouring distinct waypoints, each with steps. */
  type Step = seq<Point>
  type Leg = seq<Step>

  datatype RoadRoute = RoadRoute(coordinates: seq<Point>, legEnds: seq<nat>)

  datatype Failure = TooFewWaypoints | LegCountInvalid | LegGeometryMissing | StepInvalid | Disconnected | MetadataInvalid

  datatype Result<+T> = Ok(value: T) | Err(failure: Failure)

  predicate OnEarth(p: Point) {
    -180.0 <= p.lon <= 180.0 && -90.0 <= p.lat <= 90.0
  }

  /** `_line`. */
  predicate ValidStep(step: Step) {
    |step| >= 2 && forall p :: p in step ==> OnEarth(p)
  }

  // ----- collapsing repeated waypoints -----

  /** The number of moves among the first i + 1 waypoints. */
  function Position(waypoints: seq<Point>, i: nat): nat
    requires i < |waypoints|
  {
    if i == 0 then 0
    else Position(waypoints, i - 1) + if waypoints[i] == waypoints[i - 1] then 0 else 1
  }

  method Collapse(waypoints: seq<Point>) returns (distinct: seq<Point>, positions: seq<nat>)
    requires |waypoints| >= 1
    ensures |positions| == |waypoints|
    ensures forall i {:trigger positions[i]} :: 0 <= i < |waypoints| ==> positions[i] == Position(waypoints, i)
    ensures |distinct| == positions[|waypoints| - 1] + 1
    ensures forall i {:trigger positions[i]} :: 0 <= i < |waypoints| ==> positions[i] < |distinct| && distinct[positions[i]] == waypoints[i]
    ensures forall d :: 0 < d < |distinct| ==> distinct[d] != distinct[d - 1]
  {
    distinct, positions := [waypoints[0]], [0];
    for i := 1 to |waypoints|
      invariant |positions| == i && |distinct| == positions[i - 1] + 1
      invariant forall k {:trigger positions[k]} :: 0 <= k < i ==> positions[k] == Position(waypoints, k)
      invariant forall k {:trigger positions[k]} :: 0 <= k < i ==> positions[k] < |distinct| && distinct[positions[k]] == waypoints[k]
      invariant forall d :: 0 < d < |distinct| ==> distinct[d] != distinct[d - 1]
    {
      if waypoints[i] != distinct[|distinct| - 1] {
        distinct := distinct + [waypoints[i]];
      }
      positions := positions + [|distinct| - 1];
    }
  }

  // ----- stitching the steps of the legs together -----

  predicate Shares(line: seq<Point>, step: Step) {
    line != [] && step != [] && line[|line| - 1] == step[0]
  }

  function Join(line: seq<Point>, step: Step): seq<Point> {
    line + if Shares(line, step) then step[1..] else step
  }

  /** The line after the first n steps of a leg. */
  function JoinSteps(line: seq<Point>, leg: Leg, n: nat): seq<Point>
    requires n <= |leg|
  {
    if n == 0 then line else Join(JoinSteps(line, leg, n - 1), leg[n - 1])
  }

  /** The line after the first n legs. */
  function JoinLegs(legs: seq<Leg>, n: nat): seq<Point>
    requires n <= |legs|
  {
    if n == 0 then [] else JoinSteps(JoinLegs(legs, n - 1), legs[n - 1], |legs[n - 1]|)
  }

  /** Only the first step of a leg may start away from the line, and then within two metres. */
  predicate Connected(near: (Point, Point) -> bool, line: seq<Point>, step: Step, stepNo: nat)
    requires step != []
  {
    line == [] || line[|line| - 1] == step[0] || (stepNo == 0 && near(line[|line| - 1], step[0]))
  }

  /** Step s of a leg that continues `line` passes the checks. */
  predicate StepAccepted(near: (Point, Point) -> bool, line: seq<Point>, leg: Leg, s: nat)
    requires s < |leg|
  {
    ValidStep(leg[s]) && Connected(near, JoinSteps(line, leg, s), leg[s], s)
  }

  ghost predicate LegAccepted(near: (Point, Point) -> bool, line: seq<Point>, leg: Leg) {
    leg != [] && forall s :: 0 <= s < |leg| ==> StepAccepted(near, line, leg, s)
  }

  /** Leg l passes the checks where the legs before it end. */
  ghost predicate AcceptedAt(near: (Point, Point) -> bool, legs: seq<Leg>, l: nat)
    requires l < |legs|
  {
    LegAccepted(near, JoinLegs(legs, l), legs[l])
  }

  ghost predicate LegsAccepted(near: (Point, Point) -> bool, legs: seq<Leg>) {
    forall l :: 0 <= l < |legs| ==> AcceptedAt(near, legs, l)
  }

  /** One leg: the inner loop of `build_route`.  The first step that fails a check decides. */
  method JoinLeg(near: (Point, Point) -> bool, line: seq<Point>, leg: Leg) returns (r: Result<seq<Point>>)
    ensures r.Ok? <==> LegAccepted(near, line, leg)
    ensures r.Ok? ==> r.value == JoinSteps(line, leg, |leg|)
    ensures r == Err(LegGeometryMissing) <==> leg == []
    ensures r.Err? && leg != [] ==>
              exists s :: 0 <= s < |leg| && !StepAccepted(near, line, leg, s)
                && (forall e :: 0 <= e < s ==> StepAccepted(near, line, leg, e))
                && r.failure == if ValidStep(leg[s]) then Disconnected else StepInvalid
  {
    if leg == [] {
      return Err(LegGeometryMissing);
    }
    var coordinates := line;
    for stepNo := 0 to |leg|
      invariant forall s :: 0 <= s < stepNo ==> StepAccepted(near, line, leg, s)
      invariant coordinates == JoinSteps(line, leg, stepNo)
    {
      var points := leg[stepNo];
      if !ValidStep(points) {
        assert !StepAccepted(near, line, leg, stepNo);
        return Err(StepInvalid);
      }
      var shared := coordinates != [] && coordinates[|coordinates| - 1] == points[0];
      if coordinates != [] && !shared {
        var previous := coordinates[|coordinates| - 1];
        if stepNo != 0 || !near(previous, points[0]) {
          assert !StepAccepted(near, line, leg, stepNo);
          return Err(Disconnected);
        }
      }
      coordinates := coordinates + if shared then points[1..] else points;
    }
    return Ok(coordinates);
  }

  /** The legs together: the outer loop with `ends`. */
  method JoinAll(near: (Point, Point) -> bool, legs: seq<Leg>) returns (r: Result<RoadRoute>)
    ensures r.Ok? <==> LegsAccepted(near, legs)
    ensures r.Err? ==> r.failure in {LegGeometryMissing, StepInvalid, Disconnected}
    ensures r.Ok? ==> r.value.coordinates == JoinLegs(legs, |legs|)
    ensures r.Ok? ==> |r.value.legEnds| == |legs| + 1 && r.value.legEnds[0] == 0
    ensures r.Ok? ==> forall l {:trigger r.value.legEnds[l]} :: 0 < l <= |legs| ==> r.value.legEnds[l] == |JoinLegs(legs, l)| - 1
  {
    var coordinates: seq<Point>, ends: seq<nat> := [], [0];
    for l := 0 to |legs|
      invariant forall k :: 0 <= k < l ==> AcceptedAt(near, legs, k)
      invariant coordinates == JoinLegs(legs, l)
      invariant |ends| == l + 1 && ends[0] == 0
      invariant forall k {:trigger ends[k]} :: 0 < k <= l ==> ends[k] == |JoinLegs(legs, k)| - 1
    {
      var joined := JoinLeg(near, coordinates, legs[l]);
      if joined.Err? {
        assert !AcceptedAt(near, legs, l);
        return Err(joined.failure);
      }
      AcceptedLegAddsPoints(near, coordinates, legs[l]);
      coordinates := joined.value;
      ends := ends + [|coordinates| - 1];
    }
    return Ok(RoadRoute(coordinates, ends));
  }

  lemma {:induction false} AcceptedLegAddsPoints(near: (Point, Point) -> bool, line: seq<Point>, leg: Leg)
    requires LegAccepted(near, line, leg)
    ensures |JoinSteps(line, leg, |leg|)| > 0
  {
    JoinStepsGrows(line, leg, |leg|, near);
  }

  /** Every step adds at least one point, a leg ends where its last step ends, and the line
      stays on the map. */
  lemma {:induction false} JoinStepsGrows(line: seq<Point>, leg: Leg, n: nat, near: (Point, Point) -> bool)
    requires n <= |leg| && forall s :: 0 <= s < |leg| ==> StepAccepted(near, line, leg, s)
    ensures |JoinSteps(line, leg, n)| >= |line| + n
    ensures line == [] && 0 < n ==> |JoinSteps(line, leg, n)| > n
    ensures (forall p :: p in line ==> OnEarth(p)) ==> forall p :: p in JoinSteps(line, leg, n) ==> OnEarth(p)
    ensures 0 < n ==> leg[n - 1] != [] && JoinSteps(line, leg, n)[|JoinSteps(line, leg, n)| - 1] == leg[n - 1][|leg[n - 1]| - 1]
    ensures line <= JoinSteps(line, leg, n)
  {
    if 0 < n {
      JoinStepsGrows(line, leg, n - 1, near);
      assert StepAccepted(near, line, leg, n - 1);
      var before := JoinSteps(line, leg, n - 1);
      var tail := if Shares(before, leg[n - 1]) then leg[n - 1][1..] else leg[n - 1];
      assert JoinSteps(line, leg, n) == before + tail;
      assert forall p :: p in tail ==> p in leg[n - 1];
    }
  }

  /** Each leg ends strictly further along the line than the one before. */
  lemma {:induction false} JoinLegsGrows(near: (Point, Point) -> bool, legs: seq<Leg>, l: nat, m: nat)
    requires LegsAccepted(near, legs) && l <= m <= |legs|
    ensures JoinLegs(legs, l) <= JoinLegs(legs, m)
    ensures l < m ==> |JoinLegs(legs, l)| < |JoinLegs(legs, m)|
    ensures 0 < m ==> |JoinLegs(legs, m)| >= 2
    ensures forall p :: p in JoinLegs(legs, m) ==> OnEarth(p)
    decreases m
  {
    if 0 < m {
      assert AcceptedAt(near, legs, m - 1);
      JoinStepsGrows(JoinLegs(legs, m - 1), legs[m - 1], |legs[m - 1]|, near);
      JoinLegsGrows(near, legs, if l < m then l else m - 1, m - 1);
    }
  }

  // ----- build_route and its reader -----

  /** Where waypoint i lies on the line. */
  function EndIndex(legs: seq<Leg>, position: nat): int
    requires position <= |legs|
  {
    if position == 0 then 0 else |JoinLegs(legs, position)| - 1
  }

  /** An end index for each waypoint after the first. */
  ghost predicate EndsAtPositions(waypoints: seq<Point>, legs: seq<Leg>, ends: seq<nat>) {
    |ends| == |waypoints| - 1 && forall i :: 0 <= i < |ends| ==> EndsAtPosition(waypoints, legs, i, ends[i])
  }

  ghost predicate EndsAtPosition(waypoints: seq<Point>, legs: seq<Leg>, i: nat, end: nat)
    requires i + 1 < |waypoints|
  {
    Position(waypoints, i + 1) <= |legs| && end == EndIndex(legs, Position(waypoints, i + 1))
  }

  /** OSRM as seen from `build_route`: the snapped point of a single location, or the legs. */
  datatype Response = Response(snapped: Point, legs: seq<Leg>)

  /** `build_route`: one end index per waypoint after the first. */
  method BuildRoute(near: (Point, Point) -> bool, waypoints: seq<Point>, response: Response) returns (r: Result<RoadRoute>)
    ensures |waypoints| < 2 <==> r == Err(TooFewWaypoints)
    ensures 2 <= |waypoints| && Position(waypoints, |waypoints| - 1) > 0 ==>
              (r.Ok? <==> |response.legs| == Position(waypoints, |waypoints| - 1) && LegsAccepted(near, response.legs))
    ensures 2 <= |waypoints| && Position(waypoints, |waypoints| - 1) == 0 ==> (r.Ok? <==> OnEarth(response.snapped))
    ensures r.Ok? ==> IsRoadRoute(waypoints, r.value)
    ensures r.Ok? && Position(waypoints, |waypoints| - 1) > 0 ==>
              && r.value.coordinates == JoinLegs(response.legs, |response.legs|)
              && EndsAtPositions(waypoints, response.legs, r.value.legEnds)
  {
    if |waypoints| < 2 {
      return Err(TooFewWaypoints);
    }
    var distinct, positions := Collapse(waypoints);
    if |distinct| == 1 {
      var line := [response.snapped, response.snapped];
      if !ValidStep(line) {
        assert line[0] in line;
        return Err(StepInvalid);
      }
      PositionsRise(waypoints, 0, |waypoints| - 1);
      r := Ok(RoadRoute([response.snapped, response.snapped], seq(|waypoints| - 1, i => 1)));
      NoMoveMeansOnePoint(waypoints, r.value);
      return;
    }
    if |response.legs| != |distinct| - 1 {
      return Err(LegCountInvalid);
    }
    var joined := JoinAll(near, response.legs);
    if joined.Err? {
      return Err(joined.failure);
    }
    var ends := PickEnds(waypoints, response.legs, positions, joined.value.legEnds);
    r := Ok(RoadRoute(joined.value.coordinates, ends));
    EndsAreOrdered(near, waypoints, response.legs, r.value);
  }

  /** `tuple(ends[position] for position in positions[1:])`. */
  method PickEnds(waypoints: seq<Point>, ghost legs: seq<Leg>, positions: seq<nat>, legEnds: seq<nat>) returns (ends: seq<nat>)
    requires 2 <= |waypoints| == |positions|
    requires |legEnds| == |legs| + 1 && legEnds[0] == 0
    requires positions[|waypoints| - 1] == |legs|
    requires forall l {:trigger legEnds[l]} :: 0 < l <= |legs| ==> legEnds[l] == |JoinLegs(legs, l)| - 1
    requires forall i {:trigger positions[i]} :: 0 <= i < |waypoints| ==> positions[i] == Position(waypoints, i)
    ensures EndsAtPositions(waypoints, legs, ends)
  {
    ends := [];
    for i := 1 to |waypoints|
      invariant |ends| == i - 1
      invariant forall k :: 0 <= k < |ends| ==> EndsAtPosition(waypoints, legs, k, ends[k])
    {
      PositionsRise(waypoints, i, |waypoints| - 1);
      assert positions[i] == Position(waypoints, i) && positions[|waypoints| - 1] == |legs|;
      var end := legEnds[positions[i]];
      assert EndsAtPosition(waypoints, legs, i - 1, end);
      ends := ends + [end];
    }
  }

  /** Positions never go back. */
  lemma {:induction false} PositionsRise(waypoints: seq<Point>, i: nat, j: nat)
    requires i <= j < |waypoints|
    ensures Position(waypoints, i) <= Position(waypoints, j)
    decreases j
  {
    if i < j { PositionsRise(waypoints, i, j - 1); }
  }

  lemma {:induction false} NoMoveMeansOnePoint(waypoints: seq<Point>, route: RoadRoute)
    requires 2 <= |waypoints| && Position(waypoints, |waypoints| - 1) == 0
    requires |route.coordinates| == 2 && forall p :: p in route.coordinates ==> OnEarth(p)
    requires |route.legEnds| == |waypoints| - 1 && forall i :: 0 <= i < |route.legEnds| ==> route.legEnds[i] == 1
    ensures IsRoadRoute(waypoints, route)
  {
    forall i | 0 <= i < |route.legEnds| - 1 ensures RisesAt(waypoints, route.legEnds, i) {
      PositionsRise(waypoints, i + 2, |waypoints| - 1);
    }
  }

  ghost predicate RisesAt(waypoints: seq<Point>, ends: seq<nat>, i: nat)
    requires i + 1 < |ends| && i + 2 < |waypoints|
  {
    ends[i] <= ends[i + 1] && (ends[i] == ends[i + 1] <==> waypoints[i + 1] == waypoints[i + 2])
  }

  /** What a route promises about its waypoints: an index for each after the first, in range,
      never going back, equal exactly at a repeated neighbour, ending at the last point. */
  ghost predicate IsRoadRoute(waypoints: seq<Point>, route: RoadRoute) {
    && |route.legEnds| == |waypoints| - 1
    && |route.coordinates| >= 2
    && (forall p :: p in route.coordinates ==> OnEarth(p))
    && (forall i :: 0 <= i < |route.legEnds| ==> route.legEnds[i] < |route.coordinates|)
    && (forall i :: 0 <= i < |route.legEnds| - 1 ==> RisesAt(waypoints, route.legEnds, i))
    && (route.legEnds != [] ==> route.legEnds[|route.legEnds| - 1] == |route.coordinates| - 1)
  }

  lemma {:induction false} EndIndexRises(near: (Point, Point) -> bool, legs: seq<Leg>, p: nat, q: nat)
    requires LegsAccepted(near, legs) && p <= q <= |legs|
    ensures EndIndex(legs, p) <= EndIndex(legs, q)
    ensures p < q ==> EndIndex(legs, p) < EndIndex(legs, q)
  {
    if p < q {
      JoinLegsGrows(near, legs, p, q);
    }
  }

  lemma {:induction false} NeighbouringEnds(near: (Point, Point) -> bool, waypoints: seq<Point>, legs: seq<Leg>, i: nat, left: nat, right: nat)
    requires LegsAccepted(near, legs) && i + 2 < |waypoints|
    requires EndsAtPosition(waypoints, legs, i, left) && EndsAtPosition(waypoints, legs, i + 1, right)
    ensures left <= right && (left == right <==> waypoints[i + 1] == waypoints[i + 2])
  {
    EndIndexRises(near, legs, Position(waypoints, i + 1), Position(waypoints, i + 2));
  }

  lemma {:induction false} EndsAreOrdered(near: (Point, Point) -> bool, waypoints: seq<Point>, legs: seq<Leg>, route: RoadRoute)
    requires 2 <= |waypoints| && LegsAccepted(near, legs)
    requires |legs| == Position(waypoints, |waypoints| - 1) > 0
    requires route.coordinates == JoinLegs(legs, |legs|)
    requires EndsAtPositions(waypoints, legs, route.legEnds)
    ensures IsRoadRoute(waypoints, route)
  {
    JoinLegsGrows(near, legs, 0, |legs|);
    var ends := route.legEnds;
    forall i | 0 <= i < |ends| ensures ends[i] < |route.coordinates| {
      assert EndsAtPosition(waypoints, legs, i, ends[i]);
      EndIndexRises(near, legs, Position(waypoints, i + 1), |legs|);
    }
    forall i | 0 <= i < |ends| - 1 ensures RisesAt(waypoints, ends, i) {
      NeighbouringEnds(near, waypoints, legs, i, ends[i], ends[i + 1]);
    }
    assert EndsAtPosition(waypoints, legs, |ends| - 1, ends[|ends| - 1]);
  }

  /** `_road_data`: the reader's check against the number of stops of the route. */
  method RoadData(route: RoadRoute, stopCount: nat) returns (r: Result<RoadRoute>)
    ensures r.Ok? <==>
              && |route.coordinates| >= 2
              && (forall p :: p in route.coordinates ==> OnEarth(p))
              && route.legEnds != [] && (|route.legEnds| == stopCount || |route.legEnds| == stopCount + 1)
              && (forall i :: 0 <= i < |route.legEnds| ==> route.legEnds[i] < |route.coordinates|)
              && (forall i :: 0 < i < |route.legEnds| ==> route.legEnds[i - 1] <= route.legEnds[i])
              && route.legEnds[|route.legEnds| - 1] == |route.coordinates| - 1
    ensures r.Ok? ==> r.value == route
    ensures r.Err? ==> r.failure == MetadataInvalid
  {
    var points, ends := route.coordinates, route.legEnds;
    if |points| < 2 || ends == [] || (|ends| != stopCount && |ends| != stopCount + 1) {
      return Err(MetadataInvalid);
    }
    for i := 0 to |points|
      invariant forall p :: p in points[..i] ==> OnEarth(p)
    {
      if !OnEarth(points[i]) {
        return Err(MetadataInvalid);
      }
      assert points[..i + 1] == points[..i] + [points[i]];
    }
    assert points[..|points|] == points;
    for i := 0 to |ends|
      invariant forall j :: 0 <= j < i ==> ends[j] < |points|
      invariant forall j :: 0 < j < i ==> ends[j - 1] <= ends[j]
    {
      if |points| <= ends[i] || (0 < i && ends[i] < ends[i - 1]) {
        return Err(MetadataInvalid);
      }
    }
    if ends[|ends| - 1] != |points| - 1 {
      return Err(MetadataInvalid);
    }
    return Ok(route);
  }

  /** Whatever OSRM answers, a route that `build_route` accepts for a vehicle's start and its
      stops, with or without a trailing end point, is never rejected by its reader. */
  method BuildThenRead(near: (Point, Point) -> bool, start: Point, stops: seq<Point>, trailing: seq<Point>, response: Response)
    returns (built: Result<RoadRoute>, read: Result<RoadRoute>)
    requires |trailing| <= 1
    ensures built.Ok? ==> read == built
    ensures built == Err(TooFewWaypoints) <==> stops == [] && trailing == []
  {
    built := BuildRoute(near, [start] + stops + trailing, response);
    read := built;
    if built.Ok? {
      ghost var ends := built.value.legEnds;
      forall i | 0 < i < |ends| ensures ends[i - 1] <= ends[i] {
        assert RisesAt([start] + stops + trailing, ends, i - 1);
      }
      read := RoadData(built.value, |stops|);
    }
  }
}

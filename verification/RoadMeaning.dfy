/** Where the steps of the legs lie on the line of a road route. */
module RoadMeaning {
  import opened Ordering
  import opened RoadRoutes

  /** The points of the step are the points of the line from index at on. */
  ghost predicate Lies(line: seq<Point>, step: Step, at: int) {
    0 <= at && at + |step| <= |line| && line[at..at + |step|] == step
  }

  /** The next step starts where the one before ends, on the same point or on the one after. */
  ghost predicate Follows(before: Step, at: int, step: Step, start: int) {
    before != [] && step != [] && start == at + |before| - if before[|before| - 1] == step[0] then 1 else 0
  }

  /** at[s] is where step s of the leg starts. */
  ghost predicate StepLies(line: seq<Point>, leg: Leg, at: seq<int>, s: nat)
    requires s < |leg| && s < |at|
  {
    leg[s] != [] && Lies(line, leg[s], at[s]) && (0 < s ==> Follows(leg[s - 1], at[s - 1], leg[s], at[s]))
  }

  ghost predicate LegLies(line: seq<Point>, leg: Leg, at: seq<int>) {
    leg != [] && |at| == |leg| && forall s: nat :: s < |leg| ==> StepLies(line, leg, at, s)
  }

  /** The leg ends on this index of the line. */
  ghost predicate EndsOn(leg: Leg, at: seq<int>, end: int) {
    leg != [] && |at| == |leg| && end == at[|leg| - 1] + |leg[|leg| - 1]| - 1
  }

  ghost predicate LegFollows(before: Leg, at: seq<int>, leg: Leg, next: seq<int>) {
    && before != [] && leg != [] && |at| == |before| && |next| == |leg|
    && Follows(before[|before| - 1], at[|at| - 1], leg[0], next[0])
  }

  /** Leg l of the legs lies on the line, behind the leg before it or at the start. */
  ghost predicate LegAt(line: seq<Point>, legs: seq<Leg>, at: seq<seq<int>>, l: nat)
    requires l < |legs| && l < |at|
  {
    LegLies(line, legs[l], at[l]) && if l == 0 then at[l][0] == 0 else LegFollows(legs[l - 1], at[l - 1], legs[l], at[l])
  }

  /** The line consists of the steps of the first n legs in their order, without the points that two of them
      share. */
  ghost predicate LineLies(line: seq<Point>, legs: seq<Leg>, at: seq<seq<int>>, n: nat)
    requires n <= |legs|
  {
    && n <= |at|
    && (forall l: nat :: l < n ==> LegAt(line, legs, at, l))
    && if n == 0 then line == [] else EndsOn(legs[n - 1], at[n - 1], |line| - 1)
  }

  lemma {:induction false} LieOn(line: seq<Point>, longer: seq<Point>, step: Step, at: int)
    requires Lies(line, step, at) && line <= longer
    ensures Lies(longer, step, at)
  {
    assert longer[..|line|] == line;
    assert longer[at..at + |step|] == line[at..at + |step|];
  }

  lemma {:induction false} JoinedLies(line: seq<Point>, step: Step)
    requires step != []
    ensures line <= Join(line, step)
    ensures Lies(Join(line, step), step, |Join(line, step)| - |step|)
    ensures |Join(line, step)| == |line| + |step| - if line != [] && line[|line| - 1] == step[0] then 1 else 0
  {
    var joined := Join(line, step);
    var start := |joined| - |step|;
    assert joined[start..] == step;
    assert joined[start..start + |step|] == joined[start..];
  }

  /** Where the leg starts when it is joined to a line. */
  ghost predicate StartsAt(line: seq<Point>, leg: Leg, start: int) {
    leg != [] && leg[0] != [] && start == |line| - if line != [] && line[|line| - 1] == leg[0][0] then 1 else 0
  }

  /** The first n steps of a leg, joined to a line. */
  ghost predicate Laid(line: seq<Point>, leg: Leg, at: seq<int>, n: nat)
    requires n <= |leg|
  {
    && |at| == n && line <= JoinSteps(line, leg, n)
    && (forall s: nat :: s < n ==> StepLies(JoinSteps(line, leg, n), leg, at, s))
    && (0 < n ==> at[n - 1] + |leg[n - 1]| == |JoinSteps(line, leg, n)| && StartsAt(line, leg, at[0]))
  }

  lemma {:induction false} StepStays(line: seq<Point>, longer: seq<Point>, leg: Leg, at: seq<int>, more: seq<int>, s: nat)
    requires s < |leg| && s < |at| && StepLies(line, leg, at, s) && line <= longer && at <= more
    ensures StepLies(longer, leg, more, s)
  {
    LieOn(line, longer, leg[s], at[s]);
  }

  lemma {:induction false} LayStep(near: (Point, Point) -> bool, line: seq<Point>, leg: Leg, at: seq<int>, n: nat)
    requires LegAccepted(near, line, leg) && n < |leg| && Laid(line, leg, at, n)
    ensures Laid(line, leg, at + [|JoinSteps(line, leg, n + 1)| - |leg[n]|], n + 1)
  {
    var shorter, longer := JoinSteps(line, leg, n), JoinSteps(line, leg, n + 1);
    var more := at + [|longer| - |leg[n]|];
    assert StepAccepted(near, line, leg, n);
    JoinStepsGrows(line, leg, n, near);
    JoinedLies(shorter, leg[n]);
    forall s: nat | s < n ensures StepLies(longer, leg, more, s) { StepStays(shorter, longer, leg, at, more, s); }
    assert StepLies(longer, leg, more, n);
  }

  lemma {:induction false} LaySteps(near: (Point, Point) -> bool, line: seq<Point>, leg: Leg, n: nat) returns (at: seq<int>)
    requires LegAccepted(near, line, leg) && n <= |leg|
    ensures Laid(line, leg, at, n)
  {
    at := [];
    for k := 0 to n
      invariant Laid(line, leg, at, k)
    {
      LayStep(near, line, leg, at, k);
      at := at + [|JoinSteps(line, leg, k + 1)| - |leg[k]|];
    }
  }

  lemma {:induction false} LegStays(line: seq<Point>, longer: seq<Point>, legs: seq<Leg>, at: seq<seq<int>>, more: seq<seq<int>>, l: nat)
    requires l < |legs| && l < |at| && LegAt(line, legs, at, l) && line <= longer && at <= more
    ensures LegAt(longer, legs, more, l)
  {
    assert more[l] == at[l] && (0 < l ==> more[l - 1] == at[l - 1]);
    forall s: nat | s < |legs[l]| ensures StepLies(longer, legs[l], more[l], s) {
      StepStays(line, longer, legs[l], at[l], at[l], s);
    }
  }

  /** The line so far ends on the last point of the leg before. */
  lemma {:induction false} EndsWith(near: (Point, Point) -> bool, legs: seq<Leg>, n: nat)
    requires LegsAccepted(near, legs) && 0 < n <= |legs|
    ensures var leg, line := legs[n - 1], JoinLegs(legs, n);
            && leg != [] && leg[|leg| - 1] != [] && line != []
            && var last := leg[|leg| - 1]; line[|line| - 1] == last[|last| - 1]
  {
    assert AcceptedAt(near, legs, n - 1);
    JoinStepsGrows(JoinLegs(legs, n - 1), legs[n - 1], |legs[n - 1]|, near);
  }

  lemma {:induction false} LayLeg(near: (Point, Point) -> bool, legs: seq<Leg>, at: seq<seq<int>>, n: nat, row: seq<int>)
    requires LegsAccepted(near, legs) && n < |legs| && |at| == n && LineLies(JoinLegs(legs, n), legs, at, n)
    requires Laid(JoinLegs(legs, n), legs[n], row, |legs[n]|)
    ensures LineLies(JoinLegs(legs, n + 1), legs, at + [row], n + 1)
    ensures EndsOn(legs[n], row, |JoinLegs(legs, n + 1)| - 1)
  {
    var shorter, longer, more := JoinLegs(legs, n), JoinLegs(legs, n + 1), at + [row];
    assert AcceptedAt(near, legs, n);
    forall l: nat | l < n ensures LegAt(longer, legs, more, l) { LegStays(shorter, longer, legs, at, more, l); }
    if 0 < n {
      EndsWith(near, legs, n);
      assert more[n - 1] == at[n - 1];
    }
    assert LegLies(longer, legs[n], row);
    assert LegAt(longer, legs, more, n);
  }

  ghost predicate EndsLeg(legs: seq<Leg>, at: seq<seq<int>>, l: nat) {
    l < |legs| && l < |at| && EndsOn(legs[l], at[l], |JoinLegs(legs, l + 1)| - 1)
  }

  lemma {:induction false} LayLegs(near: (Point, Point) -> bool, legs: seq<Leg>, n: nat) returns (at: seq<seq<int>>)
    requires LegsAccepted(near, legs) && n <= |legs|
    ensures |at| == n && LineLies(JoinLegs(legs, n), legs, at, n)
    ensures forall l: nat :: l < n ==> EndsLeg(legs, at, l)
  {
    at := [];
    for k := 0 to n
      invariant |at| == k && LineLies(JoinLegs(legs, k), legs, at, k)
      invariant forall l: nat :: l < k ==> EndsLeg(legs, at, l)
    {
      assert AcceptedAt(near, legs, k);
      var row := LaySteps(near, JoinLegs(legs, k), legs[k], |legs[k]|);
      LayLeg(near, legs, at, k, row);
      forall l: nat | l < k ensures EndsLeg(legs, at + [row], l) { assert EndsLeg(legs, at, l); }
      at := at + [row];
      assert EndsLeg(legs, at, k);
    }
  }

  // ----- waypoints -----

  ghost predicate MovesTo(waypoints: seq<Point>, j: int) {
    0 < j < |waypoints| && waypoints[j] != waypoints[j - 1]
  }

  /** The moves before waypoint i is reached. */
  ghost function Moves(waypoints: seq<Point>, i: nat): set<int> {
    set j | 0 < j <= i && MovesTo(waypoints, j)
  }

  lemma {:induction false} PositionCountsMoves(waypoints: seq<Point>, i: nat)
    requires i < |waypoints|
    ensures Position(waypoints, i) == |Moves(waypoints, i)|
  {
    if 0 < i {
      PositionCountsMoves(waypoints, i - 1);
      assert Moves(waypoints, i) == Moves(waypoints, i - 1) + if MovesTo(waypoints, i) then {i} else {};
    }
  }

  /** Where the route reaches waypoint i + 1: at the end of the leg of the last move before, or at the start. */
  ghost predicate Reaches(waypoints: seq<Point>, legs: seq<Leg>, at: seq<seq<int>>, i: nat, end: nat)
    requires i + 1 < |waypoints| && |at| == |legs|
  {
    var moves := |Moves(waypoints, i + 1)|;
    moves <= |legs| && if moves == 0 then end == 0 else EndsOn(legs[moves - 1], at[moves - 1], end)
  }

  /** A road route is the line of its legs, with the points where the waypoints are reached. */
  lemma {:induction false} RouteTells(near: (Point, Point) -> bool, waypoints: seq<Point>, legs: seq<Leg>, ends: seq<nat>) returns (at: seq<seq<int>>)
    requires waypoints != [] && LegsAccepted(near, legs) && EndsAtPositions(waypoints, legs, ends)
    ensures |at| == |legs| && LineLies(JoinLegs(legs, |legs|), legs, at, |legs|)
    ensures |ends| == |waypoints| - 1 && forall i :: 0 <= i < |ends| ==> Reaches(waypoints, legs, at, i, ends[i])
  {
    at := LayLegs(near, legs, |legs|);
    forall i | 0 <= i < |ends| ensures Reaches(waypoints, legs, at, i, ends[i]) {
      assert EndsAtPosition(waypoints, legs, i, ends[i]);
      PositionCountsMoves(waypoints, i + 1);
      var moves := |Moves(waypoints, i + 1)|;
      if 0 < moves { assert EndsLeg(legs, at, moves - 1); }
    }
  }
}

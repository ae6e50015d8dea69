/** What the options of an incident are compared by, and what the ranking writes, told in the rows. */
module RankMeaning {
  import opened Ordering
  import opened Domain
  import opened Candidate
  import opened Comparison
  import opened ComparisonMeaning
  import opened Protocol
  import opened OptionRanking

  // ----- the metrics -----

  ghost predicate OpenAt(routes: seq<Route>, r: int, k: int) {
    StopAt(routes, r, k) && routes[r].stops[k].status != Completed
  }

  /** The last planned departure of the stops that are left, or now when none is. */
  ghost predicate IsFinish(routes: seq<Route>, now: Instant, finish: Instant) {
    && ((forall r, k :: !OpenAt(routes, r, k)) ==> finish == now)
    && (forall r, k :: OpenAt(routes, r, k) ==> routes[r].stops[k].plannedDeparture <= finish)
    && ((exists r, k :: OpenAt(routes, r, k)) ==> exists r, k :: OpenAt(routes, r, k) && routes[r].stops[k].plannedDeparture == finish)
  }

  /** Position k of route r is an open handover. */
  ghost predicate HandsOverAt(routes: seq<Route>, at: (int, int)) {
    OpenAt(routes, at.0, at.1) && routes[at.0].stops[at.1].kind == Handover
  }

  ghost predicate SeenBefore(routes: seq<Route>, r: int, k: int, at: (int, int)) {
    StopAt(routes, at.0, at.1) && (at.0 < r || (at.0 == r && at.1 < k))
  }

  /** What is known about the stops before stop k of route r. */
  ghost predicate SoFar(routes: seq<Route>, r: int, k: int, handovers: set<(int, int)>, finish: Option<Instant>) {
    && (forall at :: at in handovers <==> HandsOverAt(routes, at) && SeenBefore(routes, r, k, at))
    && (finish == None <==> forall at: (int, int) :: !(SeenBefore(routes, r, k, at) && OpenAt(routes, at.0, at.1)))
    && (finish.Some? ==>
         && (forall at: (int, int) :: SeenBefore(routes, r, k, at) && OpenAt(routes, at.0, at.1) ==>
               routes[at.0].stops[at.1].plannedDeparture <= finish.value)
         && exists at: (int, int) :: OpenAt(routes, at.0, at.1) && routes[at.0].stops[at.1].plannedDeparture == finish.value)
  }

  function Moves(diff: Diff): set<Id> {
    set o | o in diff.orders && diff.orders[o].routeTaskChanged
  }

  lemma {:induction false} NextStop(routes: seq<Route>, r: int, k: int, handovers: set<(int, int)>, finish: Option<Instant>)
    requires SoFar(routes, r, k, handovers, finish) && StopAt(routes, r, k)
    ensures var stop, isOpen := routes[r].stops[k], routes[r].stops[k].status != Completed;
            && (r, k) !in handovers
            && SoFar(routes, r, k + 1,
                     if isOpen && stop.kind == Handover then handovers + {(r, k)} else handovers,
                     if !isOpen then finish else Some(if finish == None then stop.plannedDeparture else Max(finish.value, stop.plannedDeparture)))
  {
    forall at: (int, int) ensures SeenBefore(routes, r, k + 1, at) <==> SeenBefore(routes, r, k, at) || at == (r, k) { }
    assert SeenBefore(routes, r, k + 1, (r, k)) && !SeenBefore(routes, r, k, (r, k));
    assert OpenAt(routes, (r, k).0, (r, k).1) <==> routes[r].stops[k].status != Completed;
  }

  lemma {:induction false} NextRoute(routes: seq<Route>, r: int, handovers: set<(int, int)>, finish: Option<Instant>)
    requires 0 <= r < |routes| && SoFar(routes, r, |routes[r].stops|, handovers, finish)
    ensures SoFar(routes, r + 1, 0, handovers, finish)
  {
    forall at: (int, int) ensures SeenBefore(routes, r + 1, 0, at) <==> SeenBefore(routes, r, |routes[r].stops|, at) { }
  }

  /** The metrics of a candidate with this comparison to its base. */
  method Measure(unassigned: nat, diff: Diff, routes: seq<Route>, now: Instant) returns (m: Metrics, ghost handovers: set<(int, int)>)
    ensures m.unassigned == unassigned && m.reassigned == |diff.reassigned| && m.changed == |Moves(diff)|
    ensures m.handovers == |handovers| && forall at :: at in handovers <==> HandsOverAt(routes, at)
    ensures IsFinish(routes, now, m.completion)
  {
    var count, finish := 0, None;
    handovers := {};
    for r := 0 to |routes|
      invariant SoFar(routes, r, 0, handovers, finish) && count == |handovers|
    {
      for k := 0 to |routes[r].stops|
        invariant SoFar(routes, r, k, handovers, finish) && count == |handovers|
      {
        var stop := routes[r].stops[k];
        NextStop(routes, r, k, handovers, finish);
        if stop.status != Completed {
          if stop.kind == Handover {
            count, handovers := count + 1, handovers + {(r, k)};
          }
          finish := Some(if finish == None then stop.plannedDeparture else Max(finish.value, stop.plannedDeparture));
        }
      }
      NextRoute(routes, r, handovers, finish);
    }
    AllSeen(routes, handovers, finish, now);
    m := Metrics(unassigned, |diff.reassigned|, |Moves(diff)|, count, if finish == None then now else finish.value);
  }

  lemma {:induction false} AllSeen(routes: seq<Route>, handovers: set<(int, int)>, finish: Option<Instant>, now: Instant)
    requires SoFar(routes, |routes|, 0, handovers, finish)
    ensures forall at :: at in handovers <==> HandsOverAt(routes, at)
    ensures IsFinish(routes, now, if finish == None then now else finish.value)
  {
    forall at: (int, int) ensures SeenBefore(routes, |routes|, 0, at) <==> StopAt(routes, at.0, at.1) { }
    forall r, k | OpenAt(routes, r, k) ensures finish.Some? && routes[r].stops[k].plannedDeparture <= finish.value {
      assert SeenBefore(routes, |routes|, 0, (r, k)) && OpenAt(routes, (r, k).0, (r, k).1);
    }
    if finish.Some? {
      var at: (int, int) :| OpenAt(routes, at.0, at.1) && routes[at.0].stops[at.1].plannedDeparture == finish.value;
    }
  }

  /** The counts of orders, told in the two plans: those that changed their vehicle, and those with an action
      that does not stay the same. */
  lemma {:induction false} MeasureTells(base: Snapshot, candidate: Snapshot, reassigned: set<Id>, changed: set<Id>)
    requires Fit(base) && Fit(candidate)
    requires forall o :: o in reassigned <==> exists v, w :: Drives(base, o, v) && Drives(candidate, o, w) && v != w
    requires forall o :: o in changed <==> (IsMember(base, o) || IsMember(candidate, o)) && Touched(base, candidate, o)
    ensures |DiffOf(base, candidate).reassigned| == |reassigned| && |Moves(DiffOf(base, candidate))| == |changed|
  {
    var diff := DiffOf(base, candidate);
    forall o: Id ensures (o in diff.reassigned <==> o in reassigned) && (o in Moves(diff) <==> o in changed) {
      ReassignedTell(base, candidate, o);
      OrdersTell(base, candidate, o);
    }
    assert diff.reassigned == reassigned && Moves(diff) == changed;
  }

  // ----- the order -----

  /** The criteria, from the first to the last; a tie goes to the option that was stored first. */
  function Criteria(row: Row): (c: seq<int>)
    ensures |c| == 6
  {
    var m := row.solved.metrics;
    [m.unassigned, m.reassigned, m.changed, m.handovers, m.completion, row.no]
  }

  /** The first criterion in which the two differ decides. */
  ghost predicate DecidedAt(a: Row, b: Row, k: nat) {
    k < 6 && Criteria(a)[k] < Criteria(b)[k] && forall j :: 0 <= j < k ==> Criteria(a)[j] == Criteria(b)[j]
  }

  ghost predicate Beats(a: Row, b: Row) {
    exists k: nat :: DecidedAt(a, b, k)
  }

  lemma {:induction false} PrecedesIff(a: Row, b: Row)
    ensures Precedes(a, b) <==> Beats(a, b)
  {
    var x, y := Criteria(a), Criteria(b);
    if Precedes(a, b) {
      var k := if x[0] != y[0] then 0 else if x[1] != y[1] then 1 else if x[2] != y[2] then 2
               else if x[3] != y[3] then 3 else if x[4] != y[4] then 4 else 5;
      assert DecidedAt(a, b, k);
    }
    if k: nat :| DecidedAt(a, b, k) {
      forall j | 0 <= j < 6 ensures j < k ==> x[j] == y[j] { }
      assert k == 0 || x[0] == y[0];
      assert k <= 1 || x[1] == y[1];
      assert k <= 2 || x[2] == y[2];
      assert k <= 3 || x[3] == y[3];
      assert k <= 4 || x[4] == y[4];
    }
  }

  // ----- the rows -----

  /** The k-th stored option: the first takes the reserved attempt, the numbers go on from there, and all are
      up for review. */
  ghost predicate RowTells(row: Row, x: Solved, k: nat, reserved: Id, no: nat, ids: Ids) {
    && row.solved == x && row.no == no + k && row.planId == ids.planId(k)
    && row.attemptId == (if k == 0 then reserved else ids.attemptId(k))
    && row.status == PendingReview && row.planStatus == PlanCandidate
  }

  /** at[k] is the k-th position with a candidate unlike all before it. */
  ghost predicate FirstPositions(solved: seq<Solved>, at: seq<int>) {
    && (forall k :: 0 <= k < |at| ==> FirstOfKind(solved, at[k]))
    && (forall k, m :: 0 <= k < m < |at| ==> at[k] < at[m])
    && forall p :: FirstOfKind(solved, p) ==> p in at
  }

  lemma {:induction false} FirstsArePositions(solved: seq<Solved>) returns (at: seq<int>)
    ensures FirstPositions(solved, at) && |at| == |Firsts(solved)|
    ensures forall k :: 0 <= k < |at| ==> Firsts(solved)[k] == solved[at[k]]
  {
    at := [];
    if solved != [] {
      var n := |solved| - 1;
      var front, last := solved[..n], solved[n];
      var before := FirstsArePositions(front);
      at := before + if last.kind !in Kinds(front) then [n] else [];
      PositionsSnoc(solved, before);
    }
  }

  lemma {:induction false} PositionsSnoc(solved: seq<Solved>, before: seq<int>)
    requires solved != [] && FirstPositions(solved[..|solved| - 1], before)
    ensures var n := |solved| - 1; FirstPositions(solved, before + if solved[n].kind !in Kinds(solved[..n]) then [n] else [])
  {
    var n := |solved| - 1;
    var front := solved[..n];
    var at := before + if solved[n].kind !in Kinds(front) then [n] else [];
    forall p | 0 <= p < n ensures FirstOfKind(solved, p) <==> FirstOfKind(front, p) {
      assert forall j :: 0 <= j <= p ==> solved[j] == front[j];
    }
    assert FirstOfKind(solved, n) <==> solved[n].kind !in Kinds(front) by {
      assert forall j :: 0 <= j < n ==> solved[j] == front[j];
    }
    assert forall p :: p in before ==> p in at;
  }

  /** The stored rows: one for each candidate unlike all before it, in their order. */
  lemma {:induction false} StoredTells(solved: seq<Solved>, rows: seq<Row>, reserved: Id, no: nat, ids: Ids) returns (at: seq<int>)
    requires RowsFor(rows, Firsts(solved), reserved, no, ids)
    ensures FirstPositions(solved, at) && |at| == |rows|
    ensures forall k :: 0 <= k < |rows| ==> RowTells(rows[k], solved[at[k]], k, reserved, no, ids)
  {
    at := FirstsArePositions(solved);
  }

  /** The same option before and after the ranking. */
  ghost predicate SameOption(a: Row, b: Row) {
    a.attemptId == b.attemptId && a.no == b.no && a.planId == b.planId && a.solved == b.solved
  }

  ghost predicate RankedAs(final: seq<Row>, i: int, max: nat) {
    && 0 <= i < |final| && final[i].priority == i + 1
    && final[i].status == (if i < max then PendingReview else Draft)
    && final[i].planStatus == (if i < max then PlanCandidate else PlanCancelled)
  }

  lemma {:induction false} KeptWhenRanked(rows: seq<Row>, final: seq<Row>, max: nat)
    requires multiset(Ranked(rows)) == multiset(rows) && Settled(final, Ranked(rows), max)
    ensures forall k :: 0 <= k < |rows| ==> exists i :: 0 <= i < |final| && SameOption(rows[k], final[i])
    ensures forall i :: 0 <= i < |final| ==> exists k :: 0 <= k < |rows| && SameOption(rows[k], final[i])
  {
    var ranked := Ranked(rows);
    forall k | 0 <= k < |rows| ensures exists i :: 0 <= i < |final| && SameOption(rows[k], final[i]) {
      assert rows[k] in multiset(ranked);
      var i :| 0 <= i < |ranked| && ranked[i] == rows[k];
      assert SameOption(rows[k], final[i]);
    }
    forall i | 0 <= i < |final| ensures exists k :: 0 <= k < |rows| && SameOption(rows[k], final[i]) {
      assert ranked[i] in multiset(rows);
      var k :| 0 <= k < |rows| && rows[k] == ranked[i];
      assert SameOption(rows[k], final[i]);
    }
  }

  /** The ranking keeps every stored option, and earlier ones win in the first criterion that differs. */
  lemma {:induction false} RankingTells(solved: seq<Solved>, rows: seq<Row>, final: seq<Row>, reserved: Id, no: nat, ids: Ids, max: nat)
    requires RowsFor(rows, Firsts(solved), reserved, no, ids) && Settled(final, Ranked(rows), max)
    ensures |final| == |rows| && forall i :: 0 <= i < |final| ==> RankedAs(final, i, max)
    ensures forall i, j :: 0 <= i < j < |final| ==> Beats(final[i], final[j])
    ensures forall k :: 0 <= k < |rows| ==> exists i :: 0 <= i < |final| && SameOption(rows[k], final[i])
    ensures forall i :: 0 <= i < |final| ==> exists k :: 0 <= k < |rows| && SameOption(rows[k], final[i])
  {
    StoredRowsAreDistinct(rows, Firsts(solved), reserved, no, ids);
    RankedSorts(rows);
    RankedAreNew(rows, Firsts(solved), reserved, no, ids);
    KeptWhenRanked(rows, final, max);
    BetterFirst(rows, final, max);
  }

  lemma {:induction false} BetterFirst(rows: seq<Row>, final: seq<Row>, max: nat)
    requires InOrder(Ranked(rows)) && Settled(final, Ranked(rows), max)
    ensures forall i, j :: 0 <= i < j < |final| ==> Beats(final[i], final[j])
  {
    forall i, j | 0 <= i < j < |final| ensures Beats(final[i], final[j]) {
      assert Precedes(Ranked(rows)[i], Ranked(rows)[j]);
      PrecedesIff(final[i], final[j]);
    }
  }
}

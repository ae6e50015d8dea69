/** A candidate never rewrites history, and the comparison with its base plan says so. */
module RecoveryHistory {
  import opened Ordering
  import opened Domain
  import opened Optimization
  import opened Finalizer
  import opened Candidate
  import opened CandidateLaws
  import opened CandidateReview
  import opened Comparison

  // ----- where an action is listed -----

  function Offset(routes: seq<Route>, j: nat): nat
    requires j <= |routes|
  {
    |Actions(routes[..j])|
  }

  lemma {:induction false} ActionAt(routes: seq<Route>, j: nat, i: nat)
    requires j < |routes| && i < |routes[j].stops|
    ensures Offset(routes, j) + i < |Actions(routes)|
    ensures Actions(routes)[Offset(routes, j) + i] == Action(routes[j].stops[i], routes[j].vehicleId)
  {
    var front := routes[..|routes| - 1];
    if j < |routes| - 1 {
      ActionAt(front, j, i);
      assert front[..j] == routes[..j];
    } else {
      assert routes[..j] == front;
      OnVehicleAt(routes[j].stops, routes[j].vehicleId, i);
    }
  }

  lemma {:induction false} ActionFrom(routes: seq<Route>, q: nat) returns (j: nat, i: nat)
    requires q < |Actions(routes)|
    ensures j < |routes| && i < |routes[j].stops| && q == Offset(routes, j) + i
    ensures Actions(routes)[q] == Action(routes[j].stops[i], routes[j].vehicleId)
  {
    var front, last := routes[..|routes| - 1], routes[|routes| - 1];
    if q < |Actions(front)| {
      j, i := ActionFrom(front, q);
      assert front[..j] == routes[..j];
    } else {
      j, i := |routes| - 1, q - |Actions(front)|;
      OnVehiclePrefix(last.stops, last.vehicleId, |last.stops|);
    }
    ActionAt(routes, j, i);
  }

  /** Stop rows have ids of their own. */
  ghost predicate DistinctIds(actions: seq<Action>) {
    forall p, q :: 0 <= p < q < |actions| ==> actions[p].stop.id != actions[q].stop.id
  }

  lemma {:induction false} FindIs(actions: seq<Action>, q: nat)
    requires q < |actions| && DistinctIds(actions)
    ensures FindById(actions, actions[q].stop.id) == Some(actions[q].stop)
  {
    if 0 < q {
      assert actions[0].stop.id != actions[q].stop.id;
      FindIs(actions[1..], q - 1);
    }
  }

  lemma {:induction false} ByKeyAt(actions: seq<Action>, q: nat)
    requires q < |actions| && DistinctKeys(actions)
    ensures KeyOf(actions[q].stop) in ByKey(actions) && ByKey(actions)[KeyOf(actions[q].stop)] == actions[q]
  {
    if q < |actions| - 1 { ByKeyAt(actions[..|actions| - 1], q); }
  }

  lemma {:induction false} RowsHaveDistinctIds(rows: seq<Route>, next: Id)
    requires Spaced(rows, next)
    ensures DistinctIds(Actions(rows))
  {
    var actions := Actions(rows);
    forall p, q | 0 <= p < q < |actions| ensures actions[p].stop.id != actions[q].stop.id {
      var j, i := ActionFrom(rows, p);
      var k, l := ActionFrom(rows, q);
      assert OwnsIds(rows[j]) && OwnsIds(rows[k]);
    }
  }

  // ----- the row of a base route -----

  lemma {:induction false} BaseRowExists(f: Frame, byVehicle: map<Id, SolverRoute>, first: Id, n: nat, r: nat) returns (j: nat)
    requires r < n <= |f.c.routes| && BaseDraft(f, byVehicle, first, n).Written? && !f.Skipped(BaseJob(f.c.routes[r], byVehicle))
    ensures j < |BaseDraft(f, byVehicle, first, n).rows|
    ensures RowOf(f, BaseJob(f.c.routes[r], byVehicle), BaseDraft(f, byVehicle, first, n).rows[j])
  {
    if r < n - 1 {
      j := BaseRowExists(f, byVehicle, first, n - 1, r);
    } else {
      j := LastBaseRow(f, byVehicle, first, r);
    }
  }

  lemma {:induction false} LastBaseRow(f: Frame, byVehicle: map<Id, SolverRoute>, first: Id, r: nat) returns (j: nat)
    requires r < |f.c.routes| && BaseDraft(f, byVehicle, first, r + 1).Written? && !f.Skipped(BaseJob(f.c.routes[r], byVehicle))
    ensures j < |BaseDraft(f, byVehicle, first, r + 1).rows|
    ensures RowOf(f, BaseJob(f.c.routes[r], byVehicle), BaseDraft(f, byVehicle, first, r + 1).rows[j])
  {
    var before := BaseDraft(f, byVehicle, first, r);
    j := |before.rows|;
    WrittenRow(f, BaseJob(f.c.routes[r], byVehicle), before.next, |before.rows| + 1);
  }

  lemma {:induction false} LeftoverKeepsRows(f: Frame, routes: seq<SolverRoute>, base: Draft, n: nat)
    requires n <= |routes| && LeftoverDraft(f, routes, base, n).Written?
    ensures base.Written? && |base.rows| <= |LeftoverDraft(f, routes, base, n).rows|
    ensures LeftoverDraft(f, routes, base, n).rows[..|base.rows|] == base.rows
  {
    if 0 < n {
      LeftoverKeepsRows(f, routes, base, n - 1);
    }
  }

  lemma {:induction false} RowExists(f: Frame, result: SolverResult, first: Id, r: nat) returns (j: nat)
    requires FinalDraft(f, result, first).Written? && r < |f.c.routes|
    requires !f.Skipped(BaseJob(f.c.routes[r], RoutesByVehicle(result.routes)))
    ensures j < |FinalDraft(f, result, first).rows|
    ensures RowOf(f, BaseJob(f.c.routes[r], RoutesByVehicle(result.routes)), FinalDraft(f, result, first).rows[j])
  {
    var byVehicle := RoutesByVehicle(result.routes);
    var base := BaseDraft(f, byVehicle, first, |f.c.routes|);
    LeftoverKeepsRows(f, result.routes, base, |result.routes|);
    j := BaseRowExists(f, byVehicle, first, |f.c.routes|, r);
    assert FinalDraft(f, result, first).rows[..|base.rows|][j] == base.rows[j];
  }

  // ----- copies look the same -----

  /** Row stop i is the copy of base stop b, and so is everything that base stop b names. */
  ghost predicate Copied(base: Route, row: Route, b: int, i: int) {
    && 0 <= b < |base.stops| && 0 <= i < |row.stops| && row.vehicleId == base.vehicleId
    && row.stops[i] == base.stops[b].(id := row.stops[i].id, routeId := row.stops[i].routeId,
                                      sequenceNo := row.stops[i].sequenceNo, precedence := row.stops[i].precedence)
    && row.stops[i].sequenceNo == i + 1
  }

  /** The copy names the copy of what the base stop names. */
  ghost predicate CopiedWithLink(base: Route, row: Route, b: int, i: int) {
    && Copied(base, row, b, i)
    && (base.stops[b].precedence == None ==> row.stops[i].precedence == None)
    && (base.stops[b].precedence.Some? ==>
         exists p, j :: Copied(base, row, p, j) && base.stops[b].precedence == Some(base.stops[p].id)
                        && row.stops[i].precedence == Some(row.stops[j].id))
  }

  ghost predicate BaseOk(base: Route) {
    WellFormed(base.stops) && ExecutedInOrder(base.stops)
  }

  lemma {:induction false} SurvivorIsCopied(f: Frame, job: Job, row: Route, base: Route, b: nat) returns (i: nat)
    requires RowOf(f, job, row) && job.base == Some(base) && b < |base.stops|
    requires Survives(base.stops[b], Lost(base, TargetsById(f.c.targets).Keys, RebuiltIds(f.c.targets)))
    ensures i == Position(base.stops, Lost(base, TargetsById(f.c.targets).Keys, RebuiltIds(f.c.targets)), b)
    ensures Copied(base, row, b, i) && i < |f.Kept(job)|
    ensures row.stops[i].precedence == Renamed(CopiedIds(f.Kept(job), row.id + 1, i), base.stops[b].precedence)
  {
    var lost := Lost(base, TargetsById(f.c.targets).Keys, RebuiltIds(f.c.targets));
    PreservedSurvive(base, TargetsById(f.c.targets).Keys, RebuiltIds(f.c.targets));
    SurvivorAt(base.stops, lost, b);
    i := Position(base.stops, lost, b);
    CopyAt(f.Kept(job), row.id, |f.Kept(job)|, i);
  }

  /** The id of an earlier survivor is renamed to the id of its copy. */
  lemma {:induction false} RenamedToCopy(f: Frame, job: Job, row: Route, base: Route, i: nat, j: nat)
    requires RowOf(f, job, row) && job.base == Some(base) && ExecutedInOrder(base.stops) && j < i < |f.Kept(job)|
    ensures j < |row.stops|
    ensures Renamed(CopiedIds(f.Kept(job), row.id + 1, i), Some(f.Kept(job)[j].id)) == Some(row.stops[j].id)
  {
    PreservedSurvive(base, TargetsById(f.c.targets).Keys, RebuiltIds(f.c.targets));
    SurvivorsAreDistinct(base.stops, Lost(base, TargetsById(f.c.targets).Keys, RebuiltIds(f.c.targets)));
    CopiedIdOf(f.Kept(job), row.id + 1, i, j);
    RowAt(f.SpliceOf(job), row.id, j);
  }

  lemma {:induction false} SurvivorIsLinked(f: Frame, job: Job, row: Route, base: Route, b: nat) returns (i: nat)
    requires RowOf(f, job, row) && job.base == Some(base) && b < |base.stops| && BaseOk(base)
    requires Survives(base.stops[b], Lost(base, TargetsById(f.c.targets).Keys, RebuiltIds(f.c.targets)))
    ensures i == Position(base.stops, Lost(base, TargetsById(f.c.targets).Keys, RebuiltIds(f.c.targets)), b)
    ensures CopiedWithLink(base, row, b, i)
  {
    i := SurvivorIsCopied(f, job, row, base, b);
    assert Linked(base.stops, b);
    if base.stops[b].kind == Delivery {
      var p :| 0 <= p < b && base.stops[b].precedence == Some(base.stops[p].id)
        && base.stops[p].orderId == base.stops[b].orderId && base.stops[p].kind != Delivery;
      var j := NamedStopIsCopied(f, job, row, base, b, p);
      assert Copied(base, row, p, j);
    }
  }

  lemma {:induction false} NamedStopIsCopied(f: Frame, job: Job, row: Route, base: Route, b: nat, p: nat) returns (j: nat)
    requires RowOf(f, job, row) && job.base == Some(base) && p < b < |base.stops| && ExecutedInOrder(base.stops)
    requires var lost := Lost(base, TargetsById(f.c.targets).Keys, RebuiltIds(f.c.targets));
             Survives(base.stops[b], lost) && base.stops[p].orderId == base.stops[b].orderId
    requires base.stops[b].precedence == Some(base.stops[p].id)
    ensures var i := Position(base.stops, Lost(base, TargetsById(f.c.targets).Keys, RebuiltIds(f.c.targets)), b);
            i < |row.stops| && Copied(base, row, p, j) && row.stops[i].precedence == Some(row.stops[j].id)
  {
    var lost := Lost(base, TargetsById(f.c.targets).Keys, RebuiltIds(f.c.targets));
    assert Survives(base.stops[p], lost);
    var i := SurvivorIsCopied(f, job, row, base, b);
    j := SurvivorIsCopied(f, job, row, base, p);
    PositionsIncrease(base.stops, lost, p, b);
    PreservedSurvive(base, TargetsById(f.c.targets).Keys, RebuiltIds(f.c.targets));
    SurvivorAt(base.stops, lost, p);
    RenamedToCopy(f, job, row, base, i, j);
  }

  /** Base plan, candidate rows and how they list their actions. */
  ghost predicate Listed(routes: seq<Route>, rows: seq<Route>, next: Id) {
    && Spaced(rows, next) && DistinctIds(Actions(routes))
    && DistinctKeys(Actions(routes)) && DistinctKeys(Actions(rows))
  }

  lemma {:induction false} SamePredecessor(routes: seq<Route>, rows: seq<Route>, next: Id, r: nat, j: nat, b: nat, i: nat)
    requires Listed(routes, rows, next) && r < |routes| && j < |rows| && CopiedWithLink(routes[r], rows[j], b, i)
    ensures PredecessorOf(rows[j].stops[i], Actions(rows)) == PredecessorOf(routes[r].stops[b], Actions(routes))
  {
    if routes[r].stops[b].precedence.Some? {
      var p, k :| Copied(routes[r], rows[j], p, k) && routes[r].stops[b].precedence == Some(routes[r].stops[p].id)
        && rows[j].stops[i].precedence == Some(rows[j].stops[k].id);
      RowsHaveDistinctIds(rows, next);
      ActionAt(routes, r, p);
      ActionAt(rows, j, k);
      FindIs(Actions(routes), Offset(routes, r) + p);
      FindIs(Actions(rows), Offset(rows, j) + k);
    }
  }

  lemma {:induction false} CopyIsUnchanged(routes: seq<Route>, rows: seq<Route>, next: Id, r: nat, j: nat, b: nat, i: nat)
    requires Listed(routes, rows, next) && r < |routes| && j < |rows| && CopiedWithLink(routes[r], rows[j], b, i)
    requires routes[r].stops[b].status == Completed || routes[r].stops[b].sequenceNo == i + 1
    ensures KeyOf(rows[j].stops[i]) == KeyOf(routes[r].stops[b])
    ensures SignatureOf(Action(rows[j].stops[i], rows[j].vehicleId), Actions(rows))
            == SignatureOf(Action(routes[r].stops[b], routes[r].vehicleId), Actions(routes))
    ensures Unchanged(Actions(routes), Actions(rows), KeyOf(routes[r].stops[b]))
  {
    SamePredecessor(routes, rows, next, r, j, b, i);
    ActionAt(routes, r, b);
    ActionAt(rows, j, i);
    ByKeyAt(Actions(routes), Offset(routes, r) + b);
    ByKeyAt(Actions(rows), Offset(rows, j) + i);
  }

  // ----- history -----

  /** One route per vehicle, every route numbered, linked and executed in order, and neither a row
      id nor a business action twice. */
  ghost predicate SoundPlan(routes: seq<Route>) {
    && OneRoutePerVehicle(routes) && (forall r :: 0 <= r < |routes| ==> BaseOk(routes[r]))
    && DistinctIds(Actions(routes)) && DistinctKeys(Actions(routes))
  }

  /** A candidate was written for a base plan whose routes are in order. */
  ghost predicate Based(f: Frame, result: SolverResult, first: Id) {
    && OneRoutePerVehicle(f.c.routes) && DistinctVehicles(result.routes) && FinalDraft(f, result, first).Written?
    && (forall r :: 0 <= r < |f.c.routes| ==> BaseOk(f.c.routes[r]))
  }

  /** And the comparison of the two is not refused. */
  ghost predicate Comparable(f: Frame, result: SolverResult, first: Id) {
    Based(f, result, first) && SoundPlan(f.c.routes) && DistinctKeys(Actions(FinalDraft(f, result, first).rows))
  }

  /** Executed stop b of base route r is in the candidate: on the same vehicle, with the same
      place and times, numbered by its position among the survivors. */
  lemma {:induction false} ExecutedStopIsCopied(f: Frame, result: SolverResult, first: Id, r: nat, b: nat) returns (j: nat, i: nat)
    requires Based(f, result, first) && r < |f.c.routes| && b < |f.c.routes[r].stops|
    requires f.c.routes[r].stops[b].status == Completed
    ensures j < |FinalDraft(f, result, first).rows| && CopiedWithLink(f.c.routes[r], FinalDraft(f, result, first).rows[j], b, i)
    ensures i == Position(f.c.routes[r].stops, Lost(f.c.routes[r], TargetsById(f.c.targets).Keys, RebuiltIds(f.c.targets)), b)
    ensures RowOf(f, BaseJob(f.c.routes[r], RoutesByVehicle(result.routes)), FinalDraft(f, result, first).rows[j])
  {
    var base := f.c.routes[r];
    var job := BaseJob(base, RoutesByVehicle(result.routes));
    var lost := Lost(base, TargetsById(f.c.targets).Keys, RebuiltIds(f.c.targets));
    PreservedSurvive(base, TargetsById(f.c.targets).Keys, RebuiltIds(f.c.targets));
    SurvivorAt(base.stops, lost, b);
    j := RowExists(f, result, first, r);
    i := SurvivorIsLinked(f, job, FinalDraft(f, result, first).rows[j], base, b);
  }

  lemma {:induction false} DraftIsListed(f: Frame, result: SolverResult, first: Id)
    requires Comparable(f, result, first)
    ensures Listed(f.c.routes, FinalDraft(f, result, first).rows, FinalDraft(f, result, first).next)
  {
    FinalDraftOk(f, result, first);
  }

  /** Recovery never rewrites history: every executed stop of the base plan is in the candidate,
      on the same vehicle, at the same place, with the same actual times and the same predecessor,
      and the comparison does not report it. */
  lemma {:induction false} ExecutedStopsAreUnchanged(f: Frame, result: SolverResult, first: Id, r: nat, b: nat)
    requires Comparable(f, result, first) && r < |f.c.routes| && b < |f.c.routes[r].stops|
    requires f.c.routes[r].stops[b].status == Completed
    ensures Unchanged(Actions(f.c.routes), Actions(FinalDraft(f, result, first).rows), KeyOf(f.c.routes[r].stops[b]))
  {
    DraftIsListed(f, result, first);
    var d := FinalDraft(f, result, first);
    var j, i := ExecutedStopIsCopied(f, result, first, r, b);
    CopyIsUnchanged(f.c.routes, d.rows, d.next, r, j, b, i);
  }

  /** What comes before an executed stop is copied before it. */
  lemma {:induction false} EarlierStopIsCopied(f: Frame, row: Route, base: Route, byVehicle: map<Id, SolverRoute>, a: nat, b: nat) returns (i: nat)
    requires RowOf(f, BaseJob(base, byVehicle), row) && BaseOk(base) && a < b < |base.stops| && base.stops[b].status == Completed
    ensures i < Position(base.stops, Lost(base, TargetsById(f.c.targets).Keys, RebuiltIds(f.c.targets)), b) && Copied(base, row, a, i)
  {
    var lost := Lost(base, TargetsById(f.c.targets).Keys, RebuiltIds(f.c.targets));
    i := SurvivorIsCopied(f, BaseJob(base, byVehicle), row, base, a);
    PositionsIncrease(base.stops, lost, a, b);
  }

  /** Executed stops of a route keep their order in the candidate. */
  lemma {:induction false} ExecutedStopsKeepTheirOrder(f: Frame, result: SolverResult, first: Id, r: nat, a: nat, b: nat) returns (j: nat, i: nat, k: nat)
    requires Based(f, result, first) && r < |f.c.routes| && a < b < |f.c.routes[r].stops|
    requires f.c.routes[r].stops[b].status == Completed
    ensures j < |FinalDraft(f, result, first).rows| && i < k
    ensures Copied(f.c.routes[r], FinalDraft(f, result, first).rows[j], a, i) && Copied(f.c.routes[r], FinalDraft(f, result, first).rows[j], b, k)
  {
    assert BaseOk(f.c.routes[r]);
    j, k := ExecutedStopIsCopied(f, result, first, r, b);
    i := EarlierStopIsCopied(f, FinalDraft(f, result, first).rows[j], f.c.routes[r], RoutesByVehicle(result.routes), a, b);
  }

  function ExecutedCount(actions: seq<Action>): nat {
    if actions == [] then 0
    else ExecutedCount(actions[..|actions| - 1]) + if actions[|actions| - 1].stop.status == Completed then 1 else 0
  }

  function ExecutedKeys(actions: seq<Action>): set<Key> {
    set key | key in ByKey(actions) && ByKey(actions)[key].stop.status == Completed
  }

  lemma {:induction false} ExecutedKeysCount(actions: seq<Action>)
    requires DistinctKeys(actions)
    ensures |ExecutedKeys(actions)| == ExecutedCount(actions)
  {
    if actions != [] {
      var front, last := actions[..|actions| - 1], actions[|actions| - 1];
      ExecutedKeysCount(front);
      ByKeyHas(front, KeyOf(last.stop));
      assert ExecutedKeys(actions) == ExecutedKeys(front) + if last.stop.status == Completed then {KeyOf(last.stop)} else {};
    }
  }

  /** The number of protected stops that the comparison shows is the number of executed stops of
      the base plan. */
  lemma {:induction false} AllExecutedStopsAreProtected(f: Frame, result: SolverResult, first: Id, members: seq<Member>)
    requires Comparable(f, result, first)
    ensures DiffOf(Snapshot(f.c.routes, f.c.members), Snapshot(FinalDraft(f, result, first).rows, members)).protectedStops
            == ExecutedCount(Actions(f.c.routes))
  {
    var was, now := Actions(f.c.routes), Actions(FinalDraft(f, result, first).rows);
    forall key | key in ExecutedKeys(was) ensures key in ProtectedKeys(was, now) {
      ByKeyHas(was, key);
      var q :| 0 <= q < |was| && was[q] == ByKey(was)[key];
      var r, b := ActionFrom(f.c.routes, q);
      ExecutedStopsAreUnchanged(f, result, first, r, b);
    }
    assert ProtectedKeys(was, now) == ExecutedKeys(was);
    ExecutedKeysCount(was);
  }

  // ----- routes nobody touched -----

  lemma {:induction false} UntouchedRowIsCopied(f: Frame, result: SolverResult, first: Id, r: nat) returns (j: nat)
    requires Based(f, result, first) && r < |f.c.routes| && f.c.routes[r].stops != []
    requires f.Unchanged(BaseJob(f.c.routes[r], RoutesByVehicle(result.routes)))
    ensures j < |FinalDraft(f, result, first).rows|
    ensures var base, row := f.c.routes[r], FinalDraft(f, result, first).rows[j];
            && row.vehicleId == base.vehicleId && |row.stops| == |base.stops|
            && forall b :: 0 <= b < |base.stops| ==> CopiedWithLink(base, row, b, b)
  {
    var base := f.c.routes[r];
    var job := BaseJob(base, RoutesByVehicle(result.routes));
    j := RowExists(f, result, first, r);
    var row := FinalDraft(f, result, first).rows[j];
    assert BaseOk(base) && f.Kept(job) == base.stops && f.New(job) == [];
    forall b | 0 <= b < |base.stops| ensures CopiedWithLink(base, row, b, b) {
      var i := SurvivorIsLinked(f, job, row, base, b);
      AllSurvive(base.stops[..b]);
    }
  }

  lemma {:induction false} SameRouteSignature(routes: seq<Route>, rows: seq<Route>, next: Id, r: nat, j: nat, n: nat)
    requires Listed(routes, rows, next) && r < |routes| && j < |rows| && |rows[j].stops| == |routes[r].stops| && n <= |routes[r].stops|
    requires forall b :: 0 <= b < |routes[r].stops| ==> CopiedWithLink(routes[r], rows[j], b, b) && routes[r].stops[b].sequenceNo == b + 1
    ensures RouteSignature(rows[j], Actions(rows), n) == RouteSignature(routes[r], Actions(routes), n)
  {
    if 0 < n {
      SameRouteSignature(routes, rows, next, r, j, n - 1);
      CopyIsUnchanged(routes, rows, next, r, j, n - 1, n - 1);
    }
  }

  lemma {:induction false} VehicleRow(routes: seq<Route>, j: nat)
    requires j < |routes| && OneRoutePerVehicle(routes)
    ensures routes[j].vehicleId in RoutesByVehicleId(routes) && RoutesByVehicleId(routes)[routes[j].vehicleId] == routes[j]
  {
    if j < |routes| - 1 { VehicleRow(routes[..|routes| - 1], j); }
  }

  /** A route that is neither rebuilt nor given new stops shows no stop change and no route change,
      although every row of it got a new id. */
  lemma {:induction false} UntouchedRoutesShowNoChange(f: Frame, result: SolverResult, first: Id, members: seq<Member>, r: nat, b: nat)
    requires Comparable(f, result, first) && r < |f.c.routes| && b < |f.c.routes[r].stops|
    requires f.Unchanged(BaseJob(f.c.routes[r], RoutesByVehicle(result.routes)))
    ensures var d := DiffOf(Snapshot(f.c.routes, f.c.members), Snapshot(FinalDraft(f, result, first).rows, members));
            KeyOf(f.c.routes[r].stops[b]) !in d.stops && f.c.routes[r].vehicleId !in d.routes
  {
    DraftIsListed(f, result, first);
    FinalDraftOk(f, result, first);
    var routes, d := f.c.routes, FinalDraft(f, result, first);
    var j := UntouchedRowIsCopied(f, result, first, r);
    assert BaseOk(routes[r]);
    CopyIsUnchanged(routes, d.rows, d.next, r, j, b, b);
    SameRouteSignature(routes, d.rows, d.next, r, j, |routes[r].stops|);
    VehicleRow(routes, r);
    VehicleRow(d.rows, j);
  }
}

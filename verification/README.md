# PenroseRoute in Dafny

PenroseRoute plans same-day pickup and delivery routes, executes them stop by stop and
rebuilds the plan when a vehicle breaks down or a merchant is late. The optimizer and the
road service are opaque; the code around them certifies, stores, executes, repairs, compares
and approves plans. This project models that code on one vocabulary of orders, stops, routes,
plans, attempts and alerts, and proves what it keeps.

Times are whole seconds and identifiers are opaque naturals. Optimizer and road service are
arbitrary functions: whatever they answer, the modelled checks accept or reject it. A database
transaction is one atomic step, except in the change feed, where locking, allocating and
committing are steps of their own.

| file | contents |
|---|---|
| `Ordering`, `Domain`, `Optimization` | shared helpers, rows, and the contracts of the optimizer |
| `Checker`, `Feasibility` | the certifying checker as a procedure, and its exactness |
| `Itineraries`, `Reports` | what it accepts and reports, in rows and matrix cells alone |
| `Finalizer`, `FinalizedPlan`, `StoredRows` | storing an accepted plan, and what its rows hold |
| `Execution`, `StopActions`, `ExecutionInvariants`, `CapacitySafety` | stop actions, what one does to the rows, what every run keeps, no overload ever |
| `RecoveryContext`, `ContextMeaning`, `ReadContexts` | what a recovery replans |
| `Candidate`, `CandidateRows`, `CandidateLaws` | the candidate spliced from history and new stops, and what its rows hold |
| `CandidateReview`, `BlockedIncidents` | the consistency gate before a decision, and what it blocks |
| `SmallInputs`, `EmptyRoute`, `MissingOrigin`, `BackwardTimes`, `GateCounterexample`, `DeliveredTwice` | the findings at concrete inputs |
| `Comparison`, `ComparisonMeaning`, `ComparisonLaws`, `RecoveryHistory`, `CandidateActions` | the difference of two plans, what it reports, its laws, and that history is preserved |
| `ExecutedPlans`, `ReplannedOrders` | every plan that storing, execution and recovery lead to, and when a recovery repeats an action |
| `PlanLedger`, `LedgerRecovery`, `LedgerLife` | the same for plans with their orders and memberships, over a whole day |
| `CandidateCapacity`, `RecoveryLoads`, `PlannedTimes`, `ReusedRoutes` | loads, planned times and serviceability of candidate rows |
| `Alternatives`, `SearchMeaning` | bounded search for alternatives, and what it asks and returns |
| `OptionRanking`, `RankMeaning` | metrics, ranking and cut-off of options |
| `Protocol`, `Transactions`, `ProtocolLaws`, `ProtocolRuns`, `ProtocolHistory`, `ProtocolReview`, `ProtocolProgress` | planning, recovery and review as a transition system, and what each transaction does to the rows |
| `DispatchStore` | the same transactions carried out row by row |
| `Alerts`, `AlertEvidence`, `AlertLaws`, `AlertFeed` | risk alerts, the numbers they show, their log and the change feed |
| `DelayPropagation`, `DelayMeaning`, `MerchantDelays` | merchant delays and the new planned times |
| `RoadRoutes`, `RoadMeaning` | the line and the leg indices of road routes |

Procedures that the source writes as loops or as methods on stored rows are methods here,
proved against specification functions; the laws are lemmas about those functions. What the
functions compute is told once more without them: `Itineraries`, `Reports`, `StoredRows`,
`StopActions`, `CandidateRows`, `Transactions`, `AlertEvidence` and the modules named
`...Meaning` speak of rows, matrix cells and arithmetic alone. A class
method of `DispatchStore` ends in the state of the corresponding protocol step, so what
`ProtocolHistory` proves about steps holds for it. Every lemma turns Dafny's automatic
induction off, so each proof is the one written down.

## What the model found

- The checker accepts an empty route with any claimed distance, and binds every other route
  (`Feasibility.EmptyRouteMayClaimAnyDistance`); the finalizer cannot store an empty one
  (`EmptyRoute.AcceptedButNotStorable`; exactly then: `FinalizedPlan.StorableIffNoEmptyRoute`).
- An affected order that is completed between the report and the recovery is planned again,
  because only the widening of a scope leaves completed orders out. The candidate then does a
  pickup and a delivery twice: where it is compared with its base the recovery fails, and where
  it is not it can pass the gate (`DeliveredTwice.CompletedOrderIsDeliveredTwice`). Nothing else
  makes a recovery repeat an action, on stored plans and on approved candidates
  (`LedgerLife.AnyRecoveryIsComparableIff`).
- A new delivery may fail to find the stop that loaded its goods
  (`MissingOrigin.AcceptedButNotWritten`); the exact condition is
  `CandidateLaws.LookupsSucceedIffGoodsAreLoaded`.
- A valid recovery can be refused by the approval gate because `route_by_order` is last
  writer wins (`GateCounterexample.AcceptedRecoveryIsRefused`); the exact condition is
  `CandidateReview.GateVerdictIsForeseeable`.
- New stops appended to the finished route of a vehicle can never be served, because the row
  keeps the status and the assignment of that route
  (`ReusedRoutes.FinishedVehicleIsStranded`); the exact condition is
  `ReusedRoutes.ReusedRouteRunsIff`.
- Unfinished stops that are kept may be planned behind the new stops that follow them
  (`BackwardTimes.AcceptedButBackward`); the exact condition is `PlannedTimes.RowRunsForwardIff`.
- Two things block an incident for good: an attempt left unsolved by a conflict
  (`ProtocolProgress.OrphanBlocksForever`), and a single candidate that fails the consistency
  check, which guards rejection and modification as well as approval
  (`BlockedIncidents.RefusedRecoveryBlocks`). While the context of the incident can be read,
  nothing else does (`ProtocolProgress.ProceedsUnlessBlocked`).
- The second validation of an alternative is redundant (`Alternatives.PassesWithoutIff`).

## Model

| member | source | states |
|---|---|---|
| Checker.Validate | backend/app/integrations/optimization/result_validator.py:22-369 | The list of issue codes returned by the procedure (nested loops, dictionaries, running sums) contains a code exactly when the condition the code stands for holds. |
| Checker.CheckStop | backend/app/integrations/optimization/result_validator.py:84-166 | One stop: service time, load change, capacity, ready time, delivery window and availability are each reported exactly when violated. |
| Checker.CheckStops | backend/app/integrations/optimization/result_validator.py:80-166 | The running load loop reports exactly the per-stop issues and groups the stops of every known order in route order. |
| Checker.DriveLegs | backend/app/integrations/optimization/result_validator.py:168-215 | The running clock and distance: the sum returned is the matrix distance of the legs, and a leg is reported exactly when the vehicle cannot be at the stop in time. |
| Checker.CheckTravel | backend/app/integrations/optimization/result_validator.py:168-215 | The travel checks are skipped for an empty route, an unknown vehicle or a stop outside the matrix, and exact otherwise. |
| Checker.CheckGroup | backend/app/integrations/optimization/result_validator.py:217-306 | The checks on one order of a route: stop set, places, required vehicle and precedence. |
| Checker.CheckRoutes | backend/app/integrations/optimization/result_validator.py:55-306 | The outer loop with its accumulating sets of vehicles and orders reports exactly the issues of each route against the routes before it. |
| Checker.CheckUnassigned | backend/app/integrations/optimization/result_validator.py:308-327 | An unassigned entry is reported exactly when it is unknown, also assigned, or repeated. |
| Checker.CheckFrozen | backend/app/integrations/optimization/result_validator.py:337-349 | Reported exactly when some frozen task is on no route of its vehicle. |
| Feasibility.AcceptedIffFeasible | backend/app/integrations/optimization/result_validator.py:22-369 | For every valid input and every FEASIBLE result: no issue is found if and only if the result is a feasible routing, a definition that never mentions the checker (every order settled once, carried by one vehicle with its origin first, loads within capacity, times, windows, travel, exact distances and totals). |
| Feasibility.GroupCleanIffCarried | backend/app/integrations/optimization/result_validator.py:217-306 | The grouped checks on an order pass exactly when the order is carried: origin once, then delivery once, at the right places, or only a delivery by the vehicle that has the goods. |
| Feasibility.TravelCleanIff | backend/app/integrations/optimization/result_validator.py:168-215 | The leg checks pass exactly when every stop can be reached in time and distance and duration are exact. |
| Feasibility.CarriedIsLocated | backend/app/integrations/optimization/result_validator.py:168-170 | A stop of a carried order is always in the matrix, so the guard on the travel checks never skips them on an accepted route. |
| Feasibility.EmptyRouteMayClaimAnyDistance | backend/app/integrations/optimization/result_validator.py:168-215 | Finding: in any accepted result, claiming another distance and duration for a route (totals adjusted) stays accepted if and only if the route is empty or nothing changed. |
| Itineraries.AcceptedIffRouting | backend/app/integrations/optimization/result_validator.py:22-369 | In the rows and matrix cells alone: nothing is found if and only if every route has cells, running metres and loads with `previous departure + durations[row][column] <= arrival` on each leg, the sum of `distances[row][column]` as its distance and no load out of bounds, every stop does what its order asks for, and every order is settled once. |
| Itineraries.AcceptedLeg | backend/app/integrations/optimization/result_validator.py:168-191 | On every leg of an accepted result, from the place in row a to the place in column b, the previous departure (or the start of duty) plus `durations[a][b]` is at most the arrival. |
| Reports.RouteReportsIff | backend/app/integrations/optimization/result_validator.py:55-306 | A route is reported for a code exactly when the rows of order, vehicle and stops and the cells of the legs tell so, given the routes before it. |
| Reports.ReportedIff | backend/app/integrations/optimization/result_validator.py:22-369 | For every code: reported if and only if what the code stands for, written out in rows, cells and running sums, holds of the result. |
| Finalizer.PlanFinalizer.Finalize | backend/app/modules/planning/finalizer.py:29-171 | The rows added are exactly the specified plan, routes, stops and memberships; a non-feasible result, incomplete roads or a failing lookup adds nothing. |
| Finalizer.PlanFinalizer.BuildRoutes | backend/app/modules/planning/finalizer.py:76-145 | The loop over the routes adds the specified row for each and fills `route_by_order_id`. |
| Finalizer.PlanFinalizer.BuildStops | backend/app/modules/planning/finalizer.py:106-145 | The loop over the stops with its dictionary `origin_stop_ids` adds exactly the specified stop rows. |
| Finalizer.PlanFinalizer.BuildMemberships | backend/app/modules/planning/finalizer.py:147-168 | The loop over the orders adds exactly the specified memberships. |
| FinalizedPlan.CertifiedIsRouted | backend/app/modules/planning/finalizer.py:29-171 | A result accepted for the input built from the planning facts satisfies everything the rows are made from: each routed order is picked up then dropped on one vehicle whose load stays within capacity. |
| FinalizedPlan.StorableIffNoEmptyRoute | backend/app/modules/planning/finalizer.py:76-145 | A certified result can be stored if and only if it has no empty route; the checker rules none out and the finalizer reads the last stop of every route. |
| EmptyRoute.AcceptedButNotStorable | backend/app/modules/planning/finalizer.py:76-145 | Finding: a concrete result with an empty route of any claimed length is accepted for a concrete day, and the finalizer fails on it. |
| FinalizedPlan.MembershipsSettleEveryOrder | backend/app/modules/planning/finalizer.py:147-168 | Every order of the day gets exactly one membership, on the one route with its stops or with its reason, and the stored counts are the counts of the rows. |
| FinalizedPlan.PlanDistanceIsSumOfRoutes | backend/app/modules/planning/finalizer.py:56-63 | The distance stored with the plan is the sum over its stored routes, with or without road geometry. |
| FinalizedPlan.PrecedenceIsTheEarlierPickup | backend/app/modules/planning/finalizer.py:106-145 | A stored delivery names the one earlier stop of its route where the order is picked up; no other stop names a predecessor. |
| StoredRows.ProblemIsPosed | backend/app/modules/planning/input_builder.py:148-203 | The problem of a day, column by column: seconds from now, the vehicles until their duty or the last possible delivery ends. |
| StoredRows.StoredTells | backend/app/modules/planning/finalizer.py:29-171 | What a successful call stores, column by column from the facts and the result: group, next version, parent, status, totals and counts of the plan; places, times, distance and status of each route; kind, window, times and predecessor of each stop; one membership per order. |
| Execution.StopExecutionService.Transition | backend/app/modules/operations/execution.py:84-172 | The checks, carried out one after the other, give the first failure in the order of the source, and all seven tables end exactly as prescribed: unchanged on refusal or repetition. |
| Execution.FindPrevious | backend/app/modules/operations/execution.py:193-200 | The search through the reversed stops finds the last listed stop with a smaller number, and none exactly when there is none. |
| Execution.StopExecutionService.ActivateRoute | backend/app/modules/operations/execution.py:221-253 | Route, vehicle, driver and assignment start together, and only from a planned route. |
| Execution.StopExecutionService.AdvanceOrder | backend/app/modules/operations/execution.py:256-285 | The status of an order is only ever raised; completion clears the risk flag. |
| Execution.StopExecutionService.FinishRoute | backend/app/modules/operations/execution.py:159-169 | With its last stop the route ends; resources that are not unavailable are released and the assignment ends. |
| Execution.StopExecutionService.RecalculateRoute | backend/app/modules/operations/risk.py:59-81 | The loop recomputes the risk flag of every delivery of the route from the delay of the route. |
| StopActions.OutcomeIff | backend/app/modules/operations/execution.py:84-172 | With all rows in place an action succeeds exactly when it has been done already or may happen: the status before it, all smaller numbers completed, no time before the previous departure or its own arrival, an open route, usable resources. |
| StopActions.RowsIff | backend/app/modules/operations/execution.py:84-130 | Without them it is refused, by what is missing first. |
| StopActions.ActionIs | backend/app/modules/operations/execution.py:84-285 | The tables after an action, column by column: stop and times, route, vehicle, driver, assignment, order status; and for every order with its last delivery on the route: NORMAL when that is completed, otherwise AT_RISK exactly when planned arrival + lateness of the first unfinished stop + threshold reaches the window end, the window of the stop before that of the order; other flags stay. |
| Risk.RiskIsMonotone | backend/app/modules/operations/risk.py:15-57 | A later look at the same route never lowers a delay or clears a risk. |
| ExecutionInvariants.RunKeepsWorldOk | backend/app/modules/operations/execution.py:84-285 | Over any sequence of calls: every route is a completed block, at most one stop under way and planned stops; route status and times are functions of the stops; recorded times run forward; every order status is the rank its stops entitle it to. |
| ExecutionInvariants.HistoryIsKept | backend/app/modules/operations/execution.py:84-285 | Over any sequence of calls completed stops, recorded times and plan data stay as they are and no order falls back. |
| ExecutionInvariants.RepeatChangesNothing | backend/app/modules/operations/execution.py:131-132 | Repeating an action that went through, at whatever time, succeeds and changes nothing. |
| ExecutionInvariants.OrderStatusFollowsStops | backend/app/modules/operations/execution.py:256-285 | In every state reachable from a fresh plan the stored order status equals a pure function of its pickup and delivery stop statuses; the order is on board exactly between the two. |
| ExecutionInvariants.RoutesAreWellFormed | backend/app/modules/operations/execution.py:131-172 | In every reachable state a route is COMPLETED exactly when all its stops are, and its end is not before its start. |
| CapacitySafety.CargoIsTheOrdersAboard | backend/app/integrations/optimization/result_validator.py:80-132 | The running load of the checker equals the total demand of the orders picked up and not yet dropped. |
| CapacitySafety.CapacityIsNeverExceeded | backend/app/modules/operations/execution.py:84-285 | Once an accepted result is stored, in every state any sequence of arrive, start and complete calls can reach, the orders in transit on a route weigh together what the checker computed for the completed prefix and at most the stored capacity. |
| RecoveryContext.CollectTargets | backend/app/modules/recovery/deterministic_context.py:187-213 | The target set of a scope: affected orders, all unfinished orders of the affected routes, and of active vehicles or the whole plan in wider scopes. |
| ContextMeaning.ScopesCover | backend/app/modules/recovery/deterministic_context.py:187-213 | Which orders each scope covers, told from reports, order statuses and routes: the reported ones and the open ones on their routes; then the open ones on routes of active vehicles; then all open ones. |
| ContextMeaning.ObstacleIff | backend/app/modules/recovery/deterministic_context.py:216-242 | An order stands in the way exactly when it is no member, is on board of no known vehicle, or is to be handed over nowhere. |
| ContextMeaning.ObstructedIff | backend/app/modules/recovery/deterministic_context.py:164-242 | A scope cannot be worked on exactly when nothing was reported or an order it covers stands in the way. |
| ContextMeaning.TargetIs | backend/app/modules/recovery/deterministic_context.py:216-275 | The target of an order, column by column: as planned, except for the ready time of the delayed merchant, the handover place and the vehicle that has the goods. |
| RecoveryContext.CollectVehicles | backend/app/modules/recovery/deterministic_context.py:280-325 | The loops over the assignments keep the usable ones with their loads and periods, as specified. |
| ContextMeaning.VehiclesAre | backend/app/modules/recovery/deterministic_context.py:280-325 | Exactly the duties of fit vehicles and drivers that reach into the period (in the narrow scope those of an affected route) are there, each once and in order, with load, start and period. |
| ContextMeaning.ProblemIsPosed | backend/app/modules/recovery/deterministic_orchestration.py:57-115 | The problem the solver is given, column by column: goods on board are only delivered, goods to be handed over are taken on at the handover place, the rest is picked up; times are seconds from now and never negative. |
| RecoveryContext.CollectFacts | backend/app/modules/recovery/deterministic_context.py:216-275 | Facts in the order of the ids, with the ready time of the delayed merchant; refused with the error of the first order that has an obstacle, and only then. |
| RecoveryContext.ReadTargets | backend/app/modules/recovery/deterministic_context.py:164-275 | Reading the orders is refused if and only if nothing is to be replanned or some target of the scope has an obstacle. |
| RecoveryContext.WideningKeepsObstacles | backend/app/modules/recovery/deterministic_context.py:187-275 | What obstructs a scope obstructs the wider one. |
| ReadContexts.StoredPlanIsUnobstructed | backend/app/modules/recovery/deterministic_context.py:216-242 | However far a stored plan has been executed, the context of an incident on its members can be read in every scope, if a handover has a place. |
| ReadContexts.ContextIsRead | backend/app/modules/recovery/deterministic_context.py:216-275 | The context of a stored plan covers exactly its orders, with status, demand and the route that serves each. |
| ReadContexts.InitialLoadsFit | backend/app/modules/recovery/deterministic_context.py:302-321 | So at any point of its execution the initial load computed for the vehicle of each of its routes is between 0 and the capacity stored with the route. |
| RecoveryContext.OnboardLoads | backend/app/modules/recovery/deterministic_context.py:302-308 | The dictionary holds exactly the vehicles that must deliver something they carry, with the sum of those demands. |
| RecoveryContext.LoadIsTheOrdersCarried | backend/app/modules/recovery/deterministic_context.py:302-308 | The load of a vehicle is the total demand of the orders it must deliver itself, each counted once. |
| RecoveryContext.InitialLoadFits | backend/app/modules/recovery/deterministic_context.py:302-321 | For any base that agrees with the tables: the initial load of the vehicle of a route is between 0 and the capacity stored with the route, for any target set. |
| RecoveryContext.WideningKeepsFacts | backend/app/modules/recovery/deterministic_context.py:216-275 | The facts of a wider scope include those of the narrower one. |
| RecoveryContext.WideningKeepsVehicles | backend/app/modules/recovery/deterministic_context.py:277-323 | A wider scope takes no vehicle out: its planning period does not end earlier and the route restriction is dropped. |
| Candidate.PersistStops | backend/app/modules/recovery/deterministic_workflow.py:800-891 | The two loops with `copied_ids`, `origin_ids` and `route_by_order` write exactly the specified rows, and fail exactly when a lookup fails. |
| Candidate.PersistCandidateRoutes | backend/app/modules/recovery/deterministic_workflow.py:651-798 | Base routes first, taking their vehicles off the solver routes, then the leftover solver routes: the draft equals the specified one or has failed. |
| Candidate.WriteBaseRoutes | backend/app/modules/recovery/deterministic_workflow.py:669-758 | The loop over the base routes and what it leaves of the solver routes. |
| Candidate.WriteMembers | backend/app/modules/recovery/deterministic_workflow.py:598-640 | The loop over the base memberships writes the specified rows with their counts. |
| Candidate.CreateCandidate | backend/app/modules/recovery/deterministic_workflow.py:566-649 | The stored candidate is exactly the specified plan, or none when a lookup fails. |
| CandidateRows.RoutesTell | backend/app/modules/recovery/deterministic_workflow.py:651-891 | The rows of a candidate from base routes, targets and solver routes: one per base route that keeps or gets something, then one per solver route of another vehicle. Status COMPLETED exactly when the base is or it loses targets and gets no solver route, otherwise the base status; places, driver, assignment, planned and actual times, distance, capacity; which stops are copied and which are new, with every column and the stop they name. |
| CandidateRows.CandidateTells | backend/app/modules/recovery/deterministic_workflow.py:566-649 | The plan row of a candidate (version, parent, totals, counts) and each membership: the last row with a stop of the order, or the reason of the solver, or the reason it had. |
| CandidateLaws.SplicedRoutesAreWellFormed | backend/app/modules/recovery/deterministic_workflow.py:800-891 | Whatever survives of a base route and whatever stops follow, the written route is numbered 1..n, every delivery names an earlier origin stop of its order on the route, and exactly the handovers carry an incident. |
| CandidateLaws.LookupsSucceedIffGoodsAreLoaded | backend/app/modules/recovery/deterministic_workflow.py:843-859 | The candidate of a certified, fully assigned result without empty routes can be written if and only if every order that must stay on its vehicle has an origin stop among what is kept of that route. |
| MissingOrigin.AcceptedButNotWritten | backend/app/modules/recovery/deterministic_workflow.py:843-859 | Finding: a concrete second incident before a handed-over order is loaded again; the recovery is accepted with every order assigned and its candidate cannot be written. |
| CandidateLaws.CompletedOriginIsLoaded | backend/app/modules/recovery/deterministic_workflow.py:60-66 | A completed origin on the member route is always kept, so such an order meets the condition. |
| CandidateReview.PassesTheGateIff | backend/app/modules/decisions/service.py:319-346 | A candidate passes the consistency check of the approval gate if and only if, for every order of the base plan, the last written route with a stop of the order also holds its delivery; everything else the gate checks always agrees. |
| CandidateReview.GateVerdictIsForeseeable | backend/app/modules/decisions/service.py:319-346 | The same verdict told from the context and the solver result alone: the gate passes if and only if, for every order, no route written after the one that serves it keeps or gets another stop of it. |
| GateCounterexample.AcceptedRecoveryIsRefused | backend/app/modules/recovery/deterministic_workflow.py:841-841 | Finding: a concrete certified, fully assigned recovery whose stored candidate the gate refuses, because the donor route of a handed-over order is written after the receiving route. |
| ReusedRoutes.ClosedRouteNeverChanges | backend/app/modules/operations/execution.py:221-231 | No sequence of calls changes a completed or cancelled route. |
| ReusedRoutes.UnassignedRouteNeverChanges | backend/app/modules/operations/execution.py:242-246 | No sequence of calls changes a route whose assignment is ended or cancelled. |
| ReusedRoutes.WaitingStopIsServed | backend/app/modules/operations/execution.py:84-172 | On a route that is open and equipped, every planned stop can be served: a sequence of calls finishes the stops before it, however far each has come, and then arrives. |
| ReusedRoutes.ReusedRouteRunsIff | backend/app/modules/recovery/deterministic_workflow.py:710-718 | Any new stop appended to a base route can ever be served if and only if that route was neither completed nor cancelled and its assignment is neither ended nor cancelled, whatever stops were kept and however far they have come. |
| ReusedRoutes.FinishedVehicleIsStranded | backend/app/modules/recovery/deterministic_workflow.py:710-718 | Finding: a concrete certified recovery gives a handover and a delivery to a vehicle whose route and assignment have ended, and no sequence of calls ever serves either. |
| Comparison.PlanActions | backend/app/modules/planning/comparison.py:133-142 | Refused exactly when a plan does a business action twice; otherwise the dictionary of its actions. |
| Comparison.ComparePlanSnapshots | backend/app/modules/planning/comparison.py:185-345 | Stop, order and route findings, counters and sets are those of the specified difference. |
| Comparison.CompareStops | backend/app/modules/planning/comparison.py:193-227 | The loop reports exactly the keys whose signatures differ. |
| Comparison.CompareOrders | backend/app/modules/planning/comparison.py:229-270 | One view per member order, as specified. |
| Comparison.AffectedBy | backend/app/modules/planning/comparison.py:293-296 | The set of affected vehicles. |
| Comparison.CountUnchanged | backend/app/modules/planning/comparison.py:301-311 | Both counters count the unchanged and the protected actions. |
| ComparisonMeaning.ComparableIff | backend/app/modules/planning/comparison.py:133-142 | Refused exactly when two stops of a plan do the same action, a handover counted per incident. |
| ComparisonMeaning.StopsTell | backend/app/modules/planning/comparison.py:145-227 | An action is reported exactly when a plan does it and it does not stay the same (vehicle, place, recorded times and the action it names; for open stops also number, planned times and status), and both sides show their stops. |
| ComparisonMeaning.OrdersTell | backend/app/modules/planning/comparison.py:229-270 | The view of an order: the vehicles of both routes, whether route, vehicle or reason differ, whether an action of it is reported, and the planned arrivals of its delivery on the vehicle it is assigned to, none once it is delivered. |
| ComparisonMeaning.RoutesTell | backend/app/modules/planning/comparison.py:272-284 | A vehicle is reported exactly when a plan has a route of it and the routes do not have the same tasks in the same order, done the same way. |
| ComparisonMeaning.ReassignedTell | backend/app/modules/planning/comparison.py:320-323 | An order is counted as reassigned if and only if both plans put it on a route and the vehicles of the two routes differ. |
| ComparisonMeaning.AffectedTell | backend/app/modules/planning/comparison.py:293-296 | A vehicle is affected if and only if it is reported or an order it drives in either plan has another assignment in the other. |
| ComparisonMeaning.FrozenTell | backend/app/modules/planning/comparison.py:286-292 | Frozen are exactly the orders delivered in both plans with no action reported. |
| ComparisonMeaning.CountsTell | backend/app/modules/planning/comparison.py:301-311 | The two counters count the actions that stay the same, and those of them that are executed. |
| ComparisonLaws.EveryActionIsAccountedFor | backend/app/modules/planning/comparison.py:185-345 | Base actions = unchanged + MODIFIED + REMOVED and candidate actions = unchanged + MODIFIED + ADDED. |
| ComparisonLaws.UntouchedOrdersAreIdentical | backend/app/modules/planning/comparison.py:193-229 | An order without a reported stop change has the same actions with the same signatures in both plans. |
| ComparisonLaws.ReportedChangesAreReal | backend/app/modules/planning/comparison.py:193-227 | A reported change is a real difference. |
| ComparisonLaws.SwappingPlansMirrors | backend/app/modules/planning/comparison.py:185-345 | Exchanging the plans exchanges ADDED with REMOVED, negates ETA deltas and keeps the reassigned, affected and frozen sets and both counters. |
| ComparisonLaws.RowIdsDoNotMatter | backend/app/modules/planning/comparison.py:145-182 | Injectively renaming the rows of either plan changes nothing but the reported route ids. |
| RecoveryHistory.ExecutedStopIsCopied | backend/app/modules/recovery/deterministic_workflow.py:811-841 | Every completed stop of a base route is in the candidate, on the same vehicle, at the same place, with the same times and the copy of the stop it names, also when the candidate repeats an action. |
| RecoveryHistory.ExecutedStopsAreUnchanged | backend/app/modules/recovery/deterministic_workflow.py:60-66 | If the comparison of a sound plan with its candidate is not refused, it reports no completed stop: vehicle, place, times and predecessor action are the same. |
| RecoveryHistory.ExecutedStopsKeepTheirOrder | backend/app/modules/recovery/deterministic_workflow.py:811-841 | Completed stops of a route keep their relative order, in every candidate. |
| RecoveryHistory.AllExecutedStopsAreProtected | backend/app/modules/planning/comparison.py:301-311 | If the comparison is not refused, `completed_stops_protected` equals the number of completed base stops. |
| RecoveryHistory.UntouchedRoutesShowNoChange | backend/app/modules/planning/comparison.py:178-182 | If the comparison is not refused, a route neither rebuilt nor given new stops yields no stop or route change although all its ids are new. |
| CandidateActions.CandidateIsComparable | backend/app/modules/planning/comparison.py:133-142 | The candidate of a certified, fully assigned result does no business action twice, so that its comparison with the base is not refused, if and only if no stop that survives serves a need its order has again. |
| CandidateActions.CandidateIsSound | backend/app/modules/recovery/deterministic_workflow.py:800-891 | Every row of such a candidate of a sound plan is numbered, linked and executed in order, with distinct ids, and the whole candidate is a sound plan again if and only if nothing is repeated. |
| CandidateActions.CertifiedServesNeeds | backend/app/modules/recovery/deterministic_orchestration.py:57-115 | A certified result serves every need of a target (pickup, handover or delivery) at most once over all routes, and nothing else. |
| CandidateActions.CertifiedHistoryIsProtected | backend/app/modules/planning/comparison.py:301-311 | For every certified recovery of a sound plan that repeats nothing, the comparison is not refused and protects exactly the executed stops. |
| ExecutedPlans.FinalizedPlanIsSound | backend/app/modules/planning/finalizer.py:29-171 | The rows stored for a certified result are a sound plan: one route per vehicle, every route numbered and linked, no id and no business action twice. |
| ExecutedPlans.RunKeepsSound | backend/app/modules/operations/execution.py:84-285 | Over any sequence of calls a sound plan stays sound, its planned part untouched and its stops completed in order. |
| ExecutedPlans.EveryPlanIsSound | backend/app/modules/recovery/deterministic_workflow.py:566-649 | From the rows of a certified result, every plan that any mixture of stop actions and recoveries that repeat nothing leads to is sound. |
| ExecutedPlans.ExecutedStopsAreCarriedOver | backend/app/modules/recovery/deterministic_workflow.py:811-841 | After any such life of the plan, every executed stop is in the next candidate with vehicle, place, times and predecessor, and everything before it stays before it, even in a candidate that repeats an action. |
| ExecutedPlans.HistoryIsProtected | backend/app/modules/planning/comparison.py:301-311 | After any such life of the plan, the comparison with the candidate that replaces it is not refused, reports no executed stop and protects exactly the executed ones. |
| ReplannedOrders.RepeatsIffFinishedTarget | backend/app/modules/recovery/deterministic_context.py:187-275 | For the context read from a stored plan at any point of its execution: the recovery repeats an action if and only if one of its targets is a completed order. |
| ReplannedOrders.RecoveryIsComparableIff | backend/app/modules/recovery/deterministic_context.py:187-213 | For such a context and a certified, fully assigned answer in any scope: the candidate can be compared with the plan, and is sound, if and only if no order the incident was reported to affect has been completed since. |
| DeliveredTwice.WitnessIsOk | backend/app/modules/recovery/deterministic_context.py:187-213 | Finding: a concrete planned day, its six stop actions and the context of a merchant delay read afterwards are an instance of all this with an affected order completed, in every scope. |
| DeliveredTwice.CompletedOrderIsDeliveredTwice | backend/app/modules/decisions/service.py:319-346 | For that context a concrete certified, fully assigned recovery is stored and passes the consistency check of the gate, yet its candidate delivers the order twice and cannot be compared with the plan. |
| PlanLedger.RunIsBalanced | backend/app/modules/operations/execution.py:84-285 | Stop actions keep the ledger of a plan balanced: an order is completed exactly when its delivery is, a done pickup shows, and every open stop belongs to an open order on the route of its membership. |
| LedgerRecovery.RepeatsIffFinished | backend/app/modules/recovery/deterministic_context.py:187-275 | For a context read from any balanced ledger the recovery repeats an action if and only if an affected order has been completed. |
| LedgerRecovery.NextIsBalanced | backend/app/modules/recovery/deterministic_workflow.py:598-640 | The rows and memberships of a recovery that repeats nothing and passes the gate are a balanced ledger again. |
| LedgerLife.EveryLedgerIsBalanced | backend/app/modules/decisions/service.py:116-150 | From the rows of a certified result, every ledger that any mixture of stop actions and approved recoveries leads to is balanced, and its plan sound. |
| LedgerLife.AnyRecoveryIsComparableIff | backend/app/modules/planning/comparison.py:133-142 | At any point of any such day, approved candidates included: the candidate of the next recovery can be compared with its base, and is sound, if and only if no order the incident was reported to affect has been completed since. |
| CandidateCapacity.CandidateIsWithin | backend/app/modules/recovery/deterministic_workflow.py:651-798 | The candidate of a recovery whose initial loads are what the kept stops leave on the vehicles, for a plan within its capacities, is within its own: no prefix of a row overloads the vehicle. |
| CandidateCapacity.EveryPlanIsWithin | backend/app/modules/recovery/deterministic_workflow.py:566-649 | From the rows of a certified result, no plan that any mixture of stop actions and such recoveries leads to overloads a vehicle on any prefix of a row. |
| RecoveryLoads.RecoveryIsTruthful | backend/app/modules/recovery/deterministic_context.py:302-323 | The recovery of a stored plan, wherever its execution stands, knows what is on every vehicle it may use: the initial loads are exactly what the kept stops leave, if no vehicle with goods to be handed over is among them. |
| RecoveryLoads.CandidateNeverOverloads | backend/app/modules/recovery/deterministic_workflow.py:651-798 | So no row of its candidate, handovers included, overloads its vehicle on any prefix, and no run of stop actions on the candidate does. |
| PlannedTimes.OriginRunsForward | backend/app/modules/planning/finalizer.py:106-145 | The planned times of every stored route run forward. |
| PlannedTimes.RowRunsForwardIff | backend/app/modules/recovery/deterministic_workflow.py:800-891 | The planned times of the row written for a base route run forward if and only if nothing is kept, nothing is new, or the last kept stop is planned to be left before the first new one is reached. |
| BackwardTimes.AcceptedButBackward | backend/app/modules/recovery/deterministic_context.py:201-207 | Finding: a concrete recovery in the wider scope, accepted with every order assigned, whose row for a vehicle that has not set out plans the new stops before the kept ones ahead of them. |
| Alerts.AlertService.Evaluate | backend/app/modules/operations/alerts.py:52-160 | Ends in the specified alerts, log, order flags and cursor, with the counts of what was created, updated and resolved. |
| Alerts.AlertService.ConsiderOrder | backend/app/modules/operations/alerts.py:90-145 | One member order: flag, new alert, refreshed evidence and log entry. |
| Alerts.AlertService.ResolveOthers | backend/app/modules/operations/alerts.py:147-158 | Exactly the alerts active before and not touched are resolved, in their order. |
| AlertEvidence.RiskIff | backend/app/modules/operations/risk.py:15-57 | An order is found at risk exactly when its unfinished delivery on the route of its membership satisfies planned arrival + lateness of the first unfinished stop + threshold >= window end. |
| AlertEvidence.EvaluationTells | backend/app/modules/operations/alerts.py:52-160 | Row by row: an alert that stays shows the estimate, lateness and window of now and PREDICTED_MISS exactly when the estimate reaches the window end; one that goes is resolved as cleared or as of another plan; new ones likewise; and exactly this news is logged, once each and in cursor order. |
| AlertEvidence.AlertsAreTheEndangered | backend/app/modules/operations/alerts.py:52-160 | After an evaluation a member order has an active alert, and only one, if and only if that arithmetic holds for it, and no other order has one. |
| AlertEvidence.FlagsAreTold | backend/app/modules/operations/alerts.py:90-158 | So is its flag; an order that is no member is cleared exactly when it had an active alert, and no other column of an order changes. |
| AlertLaws.EvaluationReconciles | backend/app/modules/operations/alerts.py:52-160 | After an evaluation the active alerts of the date are exactly the orders of the current plan whose unfinished delivery is at risk at the clamped time, and a member order is AT_RISK exactly when it has one. |
| AlertLaws.EvaluationIsIdempotent | backend/app/modules/operations/alerts.py:52-160 | An immediate second evaluation on unchanged facts creates, updates and resolves nothing and leaves every table as it was. |
| AlertLaws.AlertsAreConserved | backend/app/modules/operations/alerts.py:77-160 | Active after = active before + created - resolved. |
| AlertLaws.EveryRunIsSound | backend/app/modules/operations/alerts.py:61-166 | Over evaluations of any plans, orders and clocks: each log reads CREATED, UPDATED*, then at most one RESOLVED; an alert is RESOLVED exactly when its log ends so; its reason is the last logged one; one active alert per plan and order; times per alert never go back. |
| AlertFeed.NoChangeIsMissed | backend/app/db/repositories/alert_repository.py:50-105 | Over every interleaving of writers (lock, allocate, commit, abort) and polling clients, a client was sent each committed change up to its cursor exactly once, in order and with the committed contents. |
| AlertFeed.HistoryBelowCursorIsFinal | backend/app/db/repositories/alert_repository.py:50-60 | At or below a committed cursor the table is final. |
| AlertFeed.PollingCatchesUp | backend/app/api/routes/alerts.py:39-53 | While writers are quiet, enough polls deliver everything committed. |
| AlertFeed.WithoutTheLockAChangeIsMissed | backend/app/db/repositories/alert_repository.py:53-56 | Without the advisory lock a concrete interleaving loses a change for good. |
| DelayPropagation.CutoffByRoute | backend/app/modules/incidents/context.py:144-151 | The first pickup of the merchant on each route. |
| DelayPropagation.RemainingStops | backend/app/modules/incidents/context.py:198-205 | Exactly the unfinished stops at or behind a cutoff, in route and sequence order. |
| DelayPropagation.UpdateRemaining | backend/app/modules/incidents/workflow.py:401-436 | The in-place loop with its dictionary writes the specified times and risk flags. |
| DelayPropagation.AssessDelay | backend/app/modules/incidents/workflow.py:270-399 | Which reports are refused, accepted, replanned or waited for, and the times and flags written; replanned exactly when the delay is over ten minutes and some order of the context is not picked up yet. |
| DelayMeaning.WaitTells | backend/app/modules/incidents/workflow.py:401-436 | What waiting writes, in the rows: a stop comes as much later as the one before it on its route leaves later, leaves as planned or, if that is later, when service after the new arrival or the new ready time is over, and an unfinished order is AT_RISK exactly when the new arrival of its last delivery + threshold reaches the window end. |
| DelayMeaning.ImpactedIff | backend/app/modules/incidents/workflow.py:325-341 | The orders that make a report worth replanning: members not picked up yet that wait for the merchant, or on the same route behind one of its pickups. |
| MerchantDelays.LateOrdersAreImpacted | backend/app/modules/incidents/workflow.py:325-341 | In every state reachable from a fresh plan the order of an unfinished pickup is impacted, so a report without an open incident is replanned exactly when the delay is over ten minutes. |
| MerchantDelays.StoredPlanIsWellPlanned | backend/app/modules/incidents/workflow.py:401-436 | Wherever execution of a stored plan stands, its remaining stops give every service its time and no pickup is before its ready time, so no move exceeds the delay. |
| MerchantDelays.DelayedPickupsWait | backend/app/modules/recovery/deterministic_context.py:253-258 | An accepted recovery picks up no order of the delayed merchant before its reported ready time. |
| DelayPropagation.LeastSchedule | backend/app/modules/incidents/workflow.py:401-436 | The written times are a schedule (nothing earlier, gaps kept, full service, ready time respected) and pointwise no later than any other schedule. |
| DelayPropagation.MovesAtMostTheDelay | backend/app/modules/incidents/workflow.py:401-436 | No stop moves earlier and none by more than the merchant delay, and the plan stays fit for the next report. |
| DelayPropagation.RiskFollowsTheNewArrival | backend/app/modules/incidents/workflow.py:401-436 | The risk flag an order ends up with is the one for its last rewritten delivery. |
| DelayPropagation.OtherOrdersKeepTheirRow | backend/app/modules/incidents/workflow.py:401-436 | Only flags of unfinished orders with a rewritten delivery change. |
| RoadRoutes.BuildRoute | backend/app/integrations/routing/osrm.py:110-166 | Accepted exactly when the legs fit the distinct waypoints and pass the shape checks; then one end index per waypoint after the first, in range, never going back, equal exactly at repeated neighbours, ending at the last point. |
| RoadRoutes.RoadData | backend/app/modules/operations/simulation.py:58-80 | The loops of the reader accept exactly the routes that meet every one of its conditions. |
| RoadRoutes.BuildThenRead | backend/app/modules/operations/simulation.py:58-80 | Whatever the road service answers, a built route for a start and its stops, with or without a trailing end point, is never rejected by its reader. |
| RoadRoutes.JoinLegsGrows | backend/app/integrations/routing/osrm.py:141-160 | Each leg ends strictly further along the line. |
| RoadMeaning.RouteTells | backend/app/integrations/routing/osrm.py:110-166 | The line of a road route consists of all steps of all legs in their order, each starting on the last point of the one before or right behind it, and each waypoint is reached at the end of the leg of its last move, or at the start. |
| Alternatives.SolveAlternatives | backend/app/modules/recovery/options.py:43-79 | For an arbitrary solver: at most three calls, first in first out over reduced problems that were not asked yet, stopping at the limit; an error or an invalid answer ends it; otherwise the complete answers, first of each signature; if it stops early every vehicle a complete answer could do without was tried. |
| Alternatives.Expand | backend/app/modules/recovery/options.py:75-78 | The reduced problems are queued in the order of the vehicle ids, without those asked before. |
| Alternatives.CheckAnswer | backend/app/modules/recovery/options.py:69-70 | Both validations pass exactly when the first one does. |
| SearchMeaning.RequiredIff | backend/app/modules/recovery/options.py:51-52 | A vehicle is never left out exactly when some order is bound to it or a frozen task is its own. |
| SearchMeaning.BoundVehiclesDrive | backend/app/modules/recovery/options.py:51-62 | And rightly: every complete answer that passes drives all such vehicles. |
| SearchMeaning.ReducedProblem | backend/app/modules/recovery/options.py:60-60 | A reduced problem has the vehicles that are not excluded, in their order, and differs in nothing else. |
| SearchMeaning.ProblemsAre | backend/app/modules/recovery/options.py:52-78 | Whatever the solver answers, the calls ask for the whole problem, then for the one without the first vehicle its answer can spare, then for the one without the next such vehicle or, if there is none, without a further one. |
| SearchMeaning.SearchEnds | backend/app/modules/recovery/options.py:52-78 | Nothing is asked when a bound vehicle is missing; otherwise, short of three calls and of the wanted number of plans, the search ends only when every vehicle that could be spared was tried. |
| SearchMeaning.SamePlanIff | backend/app/modules/recovery/options.py:71-71 | Two answers have the same signature exactly when the same vehicles drive the same tours, for results with one route per vehicle. |
| SearchMeaning.ResultsTell | backend/app/modules/recovery/options.py:66-74 | The results are the complete answers unlike all earlier ones, in the order of the calls. |
| Alternatives.PassesWithoutIff | backend/app/modules/recovery/options.py:69-70 | A result passes for the reduced problem if and only if it passes for the original and drives no excluded vehicle: the second validation never finds more. |
| Alternatives.AlternativesAreSound | backend/app/modules/recovery/options.py:43-79 | Whatever the solver answers, the alternatives are feasible for the original input, leave no order out, are pairwise different and at most as many as asked for. |
| Alternatives.NoAnswerIsLost | backend/app/modules/recovery/options.py:71-74 | Every complete answer is among the results up to its signature. |
| Alternatives.LeavingOutChangesThePlan | backend/app/modules/recovery/options.py:75-78 | Every later call leaves out a vehicle that an earlier complete answer drove and that is not required, and its complete answer differs from that one. |
| OptionRanking.StoreRows | backend/app/modules/recovery/options.py:186-228 | The loop stores one row for the first candidate of each signature, numbered on from the reserved attempt. |
| RankMeaning.Measure | backend/app/modules/recovery/options.py:194-201 | The metrics of a candidate: open handovers are counted and the completion is the latest planned departure of the open stops, or now when there are none. |
| RankMeaning.MeasureTells | backend/app/modules/recovery/options.py:191-201 | The orders counted are those on two different vehicles in the two plans, and the members with a reported action. |
| RankMeaning.StoredTells | backend/app/modules/recovery/options.py:182-223 | There is one row per candidate unlike all before it, in their order: the reserved attempt first, numbers going on from it, all under review. |
| OptionRanking.FirstsAre | backend/app/modules/recovery/options.py:190-193 | Exactly the first candidates of each signature are kept, all signatures are represented and none twice. |
| OptionRanking.RankAndCut | backend/app/modules/recovery/options.py:225-241 | In place: the rows end up in the order of the ranking with priorities, and those beyond the limit become drafts with cancelled plans. |
| RankMeaning.PrecedesIff | backend/app/modules/recovery/options.py:30-35 | One option precedes another exactly when it is smaller in the first criterion in which they differ: unassigned, reassigned, changed, handovers, completion, attempt number. |
| RankMeaning.RankingTells | backend/app/modules/recovery/options.py:225-241 | Ranking keeps attempt, number, plan and candidate of every stored row; any earlier row wins in the first criterion that differs; priority is the position, and beyond the limit rows are drafts with cancelled plans. |
| OptionRanking.RankedSorts | backend/app/modules/recovery/options.py:225-225 | The ranking is a permutation of the rows in strictly increasing order of the criteria. |
| OptionRanking.OrderIsUnique | backend/app/modules/recovery/options.py:34-35 | There is only one such order. |
| OptionRanking.RankingAndCutOff | backend/app/modules/recovery/options.py:182-244 | Priorities are exactly 1..n in lexicographic order with the attempt number as tie-break; the first max rows are under review, the others drafts with cancelled plans; signatures are pairwise different. |
| OptionRanking.TheBestAreUnderReview | backend/app/modules/recovery/options.py:229-246 | Stored through the protocol, exactly the best rows are under review for the incident. |
| ProtocolHistory.RunKeepsInv | backend/app/modules/recovery/deterministic_workflow.py:102-415 | Every state reachable by any sequence of planning, recovery, option and review transactions keeps the invariant: plan lineage, table constraints, candidates paired with attempts under review, one attempt in the works at most, single approval, worker bookkeeping. |
| ProtocolHistory.ReachableIsInOrder | backend/app/db/models/planning.py:76-102 | Starting from empty tables: at most one CURRENT plan per date, one group per date, versions distinct, parents of smaller version on the same date, and the CHECK constraints of plans, incidents and attempts. |
| ProtocolHistory.PlansOnlyMoveForward | backend/app/modules/planning/workflow.py:111-183 | Over any run no plan disappears, its date, group, version and parent are fixed, and SUPERSEDED and CANCELLED are final. |
| ProtocolHistory.StepAdvances | backend/app/modules/decisions/service.py:116-150 | In any transaction a candidate becomes CURRENT only together with the end of its own parent. |
| Transactions.ScopesWiden | backend/app/modules/incidents/scope.py:27-36 | The scope after AFFECTED_ROUTE is CROSS_ROUTE, then ALL_REMAINING, then none; an options run covers its scope and the wider ones. |
| Transactions.EnabledIff | backend/app/modules/decisions/service.py:293-346 | For every transaction the exact states in which it goes through, written out in rows: the review gate, the generation and confirmation of drafts, the start, widening, proposal and batch of attempts. |
| Transactions.PlanningTells | backend/app/modules/planning/workflow.py:111-183 | Every row that planning and a report leave: the new plan with group, next version and parent, the cancelled draft, the incident. |
| Transactions.WorkTells | backend/app/modules/recovery/deterministic_workflow.py:214-308 | What a start, an infeasible, failed, invalid or abandoned attempt leaves. |
| Transactions.ExpandTells | backend/app/modules/recovery/deterministic_workflow.py:256-273 | The attempt of the next scope: number, predecessor, base. |
| Transactions.ProposeTells | backend/app/modules/recovery/deterministic_workflow.py:309-405 | The candidate, the attempt under review and the incident. |
| Transactions.StartOptionsTells | backend/app/modules/recovery/options.py:96-132 | What an options run turns down and reserves. |
| Transactions.StoreTells | backend/app/modules/recovery/options.py:171-246 | Every row of a batch: attempts, candidates, which are cut off, and the incident. |
| Transactions.ApproveTells | backend/app/modules/decisions/service.py:116-163 | Base superseded, candidate current, incident resolved, attempt and siblings decided, with who and when, and nothing else. |
| Transactions.RejectTells | backend/app/modules/decisions/service.py:138-158 | Candidate cancelled, attempt decided, incident in REVIEW exactly while an option is still pending. |
| Transactions.ModifyTells | backend/app/modules/decisions/service.py:182-233 | Candidate and siblings turned down, the attempt of the next scope reserved behind the last one. |
| ProtocolHistory.LateCandidateNeverCurrent | backend/app/modules/decisions/service.py:293-318 | A candidate whose base was superseded never becomes CURRENT. |
| ProtocolRuns.GenerateKeepsInv | backend/app/modules/planning/workflow.py:111-140 | A generated plan or draft keeps the invariant; a new draft cancels the latest draft. |
| ProtocolRuns.ConfirmKeepsInv | backend/app/modules/planning/workflow.py:159-183 | So does a confirmed draft. |
| ProtocolRuns.ExpandKeepsInv | backend/app/modules/recovery/deterministic_workflow.py:256-273 | So does the next attempt of a wider scope; its number is the next free one. |
| ProtocolRuns.ProposeKeepsInv | backend/app/modules/recovery/deterministic_workflow.py:309-405 | So does a proposed candidate. |
| ProtocolRuns.StoreOptionsKeepsInv | backend/app/modules/recovery/options.py:171-246 | So does a stored batch of options with its cut-off. |
| ProtocolRuns.ApproveKeepsInv | backend/app/modules/decisions/service.py:116-163 | So does an approval with its closed siblings. |
| ProtocolRuns.ModifyKeepsInv | backend/app/modules/decisions/service.py:182-233 | So does a modification with the reservation of the next attempt. |
| ProtocolReview.RowsOnlyMoveForward | backend/app/db/models/recovery.py:180-243 | Over any run no attempt disappears, numbers and predecessors are fixed, recorded outcomes and verdicts are never revised, and a resolved incident stays as it is. |
| ProtocolReview.OneApprovalEver | backend/app/modules/decisions/service.py:142-154 | An incident is approved at most once ever. |
| ProtocolReview.ApprovalLeavesNothingOpen | backend/app/modules/decisions/service.py:152-156 | Approval leaves no attempt of the incident under review or in the works. |
| ProtocolReview.ModificationLeavesOnlyTheNext | backend/app/modules/decisions/service.py:207-230 | Modification leaves nothing under review; only the wider attempt is in the works. |
| ProtocolReview.StoredUnderReview | backend/app/modules/recovery/options.py:171-246 | After a batch the attempts under review are exactly its options short of the cut-off. |
| ProtocolProgress.OtherIncidentsUndisturbed | backend/app/modules/decisions/service.py:182-233 | A transaction leaves alone the attempts of every other incident. |
| ProtocolProgress.ConflictOrphans | backend/app/modules/recovery/deterministic_workflow.py:328-335 | Finding: an attempt whose worker meets a conflict before recording an outcome is left as an unsolved draft. |
| ProtocolProgress.OrphanBlocksForever | backend/app/modules/recovery/deterministic_workflow.py:110-124 | Whatever is attempted afterwards, the incident stays as it is and every further transaction on it is refused. |
| ProtocolProgress.UnfitBlocksForever | backend/app/modules/decisions/service.py:301-346 | A single candidate under review whose snapshot is inconsistent blocks its incident for good: over any run it stays under review, the incident stays as it is and every further transaction on it is refused. |
| ProtocolProgress.ProceedsIff | backend/app/modules/recovery/options.py:96-132 | An open incident of the current plan can be worked on if and only if it has no orphaned attempt, no inconsistent single candidate under review, and something to go on with: a context that can be read, an attempt in the works, a consistent candidate to decide, or a wider scope to try. |
| ProtocolProgress.ProceedsUnlessBlocked | backend/app/modules/recovery/options.py:96-132 | So while no target of the incident has an obstacle, those two are exactly what blocks it. |
| BlockedIncidents.ProposalIsDecidableIff | backend/app/modules/decisions/service.py:319-346 | Whether a proposed candidate can be decided is settled by context and solver result: it can while its base is current, if every order is served by the last route written with a stop of it; otherwise no later transaction on the incident ever goes through. |
| BlockedIncidents.RefusedRecoveryBlocks | backend/app/modules/decisions/service.py:319-346 | Finding: a concrete run from empty tables in which an accepted, fully assigned recovery is proposed and its incident, without any orphan and with a readable context, is blocked for good. |
| DispatchStore.DispatchStore.Generate | backend/app/modules/planning/workflow.py:111-140 | The writes of plan generation end in the state the transaction prescribes, or change nothing. |
| DispatchStore.DispatchStore.ConfirmDraft | backend/app/modules/planning/workflow.py:165-183 | The writes of a confirmation, likewise. |
| DispatchStore.DispatchStore.Approve | backend/app/modules/decisions/service.py:108-163 | The field-by-field writes of an approval end in the prescribed state; refused exactly when not reviewable, an inconsistent snapshot included, too early or stale. |
| DispatchStore.DispatchStore.Reject | backend/app/modules/decisions/service.py:138-158 | The writes of a rejection, with REVIEW kept while siblings are pending; refused exactly when not reviewable, an inconsistent snapshot included. |
| DispatchStore.DispatchStore.Modify | backend/app/modules/decisions/service.py:182-233 | The writes of a modification; the new attempt follows the last one of the incident; an inconsistent snapshot is refused here, too. |
| DispatchStore.DispatchStore.StartOptions | backend/app/modules/recovery/options.py:96-132 | The writes that start an options run; refused exactly when attempts or the context forbid it. |
| DispatchStore.CloseAll | backend/app/modules/decisions/service.py:376-391 | The loop closes exactly the given siblings with their plans, and lists them by attempt number. |
| DispatchStore.CloseListed | backend/app/modules/decisions/service.py:376-391 | Closing one after the other equals closing them together. |

## Left out

- The optimizer itself, HTTP to the road service and to language models, FastAPI routes, authentication, intent planning and explanation texts: foreign calls or presentation.
- Sessions, row locks, flush order and isolation levels: one transaction is one step; only the change feed is modelled at the grain of lock, allocation and commit.
- The older twins of the same services (`DecisionService`, `PlanningService`, `SqlRecoveryApplication`, `recovery/workflow.py`, `incidents/service.py`, `optimization/solver.py`): they would repeat the theorems in weaker form.
- Status edits of orders and vehicles outside stop actions: an execution run contains only stop actions.
- Floating point: coordinates and the two-metre test of `build_route` enter as an arbitrary predicate, and positions along a road are not modelled.
- The shape checks on OSRM payloads that only reject malformed JSON, and `_snaps`.
- Reason texts, names of dispatchers and fingerprints: the fingerprint and schedule checks on the approval of an option enter as one flag.
- Protocol: obstacles of targets change by an event of their own, because stop actions are not steps of the protocol; a comparison that is refused or a lookup that fails while a candidate is written is a worker that leaves.
- `decide` after its transaction refreshes the alerts of the date; that is an evaluation of `Alerts`, not part of the step.
- The order in which a comparison lists its findings, and its plan-wide sums of distance and completion.
- `_build_candidate_road_routes`: road distances enter as a given map.
- Geometry columns and route metrics of stored routes, except the leg indices.
- RecoveryContext.ReadTargets: the checks on the incident row and its plan before the orders are read are part of `Protocol.BaseIsCurrent`; a breakdown without a place is refused even when nothing is handed over, which is not modelled.
- ReadContexts.InitialLoadsFit: speaks of a plan stored by the finalizer; in an approved candidate an order handed over but not yet re-loaded counts as on board although it is not.
- CapacitySafety.CapacityIsNeverExceeded: weighs orders by their stored status and speaks of plans stored by the finalizer, for the same reason; the loads of candidates are counted by their stops in `CandidateCapacity` and `RecoveryLoads`.
- `PlanComparisonService`, which only loads the two plans to be compared.
- Candidate.CreateCandidate: ids are drawn in increasing order; the source draws random ones, and `ComparisonLaws.RowIdsDoNotMatter` shows that the comparison cannot tell.
- DelayPropagation.AssessDelay: whether an incident is open enters as a flag; the incident row and the affected-order rows are not written.
- RecoveryLoads.RecoveryIsTruthful: that a vehicle with goods to be handed over is not usable, that an affected order's recorded route is that of its membership, and that a vehicle has the capacity its route was stored with are hypotheses about the rows read.
- CandidateCapacity.EveryPlanIsWithin: for recoveries of approved candidates the truth of the initial loads is a hypothesis; it can fail while goods to be handed over stand on the vehicle they left, because their order counts as on board of the one that is to fetch them.
- Alternatives.Expand: vehicle ids are compared as numbers, the source compares their text.

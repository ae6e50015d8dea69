/** Which incidents can still be worked on.  Transactions of different incidents do not disturb each
    other.  Two things block an incident for good: an attempt whose worker left before an outcome was
    recorded, and a single candidate whose snapshot the review refuses.  Otherwise work goes on as soon
    as the context of the incident can be read. */
module ProtocolProgress {
  import opened Ordering
  import opened Domain
  import opened Protocol
  import opened ProtocolLaws
  import opened ProtocolRuns
  import opened ProtocolHistory
  import opened ProtocolReview

  function IncidentOf(s: State, a: Id): Option<Id> {
    if a in s.attempts then Some(s.attempts[a].incidentId) else None
  }

  /** The incident a transaction works on; leaving an attempt works on none. */
  function WorksOn(s: State, e: Event): Option<Id> {
    match e
    case EStart(i, _) => Some(i)
    case EStartOptions(i, _, _, _, _) => Some(i)
    case EInfeasible(a) => IncidentOf(s, a)
    case EError(a) => IncidentOf(s, a)
    case EInvalid(a) => IncidentOf(s, a)
    case EExpand(a, _) => IncidentOf(s, a)
    case EPropose(a, _, _, _) => IncidentOf(s, a)
    case EStoreOptions(a, _, _, _) => IncidentOf(s, a)
    case EApprove(a, _, _) => IncidentOf(s, a)
    case EReject(a, _, _) => IncidentOf(s, a)
    case EModify(a, _, _, _, _) => IncidentOf(s, a)
    case _ => None
  }

  // ----- one incident at a time -----

  /** The incident, this attempt of it, and whether somebody works on the attempt. */
  ghost predicate Undisturbed(s: State, t: State, i: Id, a: Id) {
    && i in s.incidents && i in t.incidents && t.incidents[i] == s.incidents[i]
    && a in s.attempts && a in t.attempts && t.attempts[a] == s.attempts[a]
    && (a in t.workers ==> a in s.workers)
  }

  lemma {:induction false} ClosingUndisturbed(s: State, j: Id, except: set<Id>, v: Verdict, a: Id)
    requires a in s.attempts && s.attempts[a].incidentId != j
    ensures Closed(s, PendingOf(s, j, except), v).attempts[a] == s.attempts[a]
  {
  }

  lemma {:induction false} StoreUndisturbed(s: State, b: Id, options: seq<Option_>, latests: seq<Option<Id>>, beyond: set<Id>, i: Id, a: Id)
    requires CanStoreOptions(s, b, options, latests, beyond) && Of(s, a, i) && i in s.incidents && s.attempts[b].incidentId != i
    ensures Undisturbed(s, OptionsStored(s, b, options, latests, beyond), i, a)
  {
    OptionsTouch(s, b, options, latests, |options|);
    if a in beyond { CutOffIsNew(s, b, options, latests, |options|, a); }
  }

  lemma {:induction false} ReviewUndisturbed(s: State, e: Event, i: Id, a: Id)
    requires Enabled(s, e) && (e.EApprove? || e.EReject? || e.EModify?) && WorksOn(s, e) != Some(i)
    requires Of(s, a, i) && i in s.incidents
    ensures Undisturbed(s, Apply(s, e), i, a)
  {
  }

  lemma {:induction false} WorkUndisturbed(s: State, e: Event, i: Id, a: Id)
    requires Enabled(s, e) && OfOneWorker(e) && WorksOn(s, e) != Some(i)
    requires Of(s, a, i) && i in s.incidents
    ensures Undisturbed(s, Apply(s, e), i, a)
  {
  }

  lemma {:induction false} PlanningUndisturbed(s: State, e: Event, i: Id, a: Id)
    requires Enabled(s, e) && (e.EGenerate? || e.EConfirm? || e.EReport? || e.EFacts? || e.EStartOptions?) && WorksOn(s, e) != Some(i)
    requires Of(s, a, i) && i in s.incidents
    ensures Undisturbed(s, Apply(s, e), i, a)
  {
  }

  /** A transaction leaves alone the attempts of all other incidents. */
  lemma {:induction false} OtherIncidentsUndisturbed(s: State, e: Event, i: Id, a: Id)
    requires WorksOn(s, e) != Some(i) && Of(s, a, i) && i in s.incidents
    ensures Undisturbed(s, Step(s, e), i, a)
  {
    if Enabled(s, e) {
      if OfOneWorker(e) {
        WorkUndisturbed(s, e, i, a);
      } else if e.EStoreOptions? {
        StoreUndisturbed(s, e.attemptId, e.options, e.latests, e.beyond, i, a);
      } else if e.EApprove? || e.EReject? || e.EModify? {
        ReviewUndisturbed(s, e, i, a);
      } else {
        PlanningUndisturbed(s, e, i, a);
      }
    }
  }

  // ----- an orphaned attempt -----

  /** Reserved, without an outcome, and nobody works on it. */
  ghost predicate Orphan(s: State, a: Id, i: Id) {
    Unsolved(s, a, i) && a !in s.workers
  }

  ghost predicate HasOrphan(s: State, i: Id) {
    exists a :: Orphan(s, a, i)
  }

  /** No other attempt of the incident is worked on, and the number after any other is taken. */
  lemma {:induction false} OrphanIsAlone(s: State, a: Id, i: Id, b: Id)
    requires Inv(s) && Orphan(s, a, i) && Of(s, b, i)
    ensures b in s.workers ==> s.workers[b] == Expanding
    ensures !Pending(s, b, i) && b != a ==> !NumberFree(s, i, s.attempts[b].no + 1)
    ensures !Pending(s, b, i)
  {
    assert AtTheEnd(s, a, i);
    if b in s.workers && s.workers[b].Solving? {
      assert WorkerOk(s, b);
      assert AtTheEnd(s, b, i);
      OnlyOneUnsolved(s, a, b, i);
    }
    if b != a && NumberFree(s, i, s.attempts[b].no + 1) {
      FreeNumberIsBeyond(s, i, s.attempts[b].no + 1, a);
      assert HasNumber(s, a, i, s.attempts[a].no) && HasNumber(s, b, i, s.attempts[a].no);
    }
  }

  /** No transaction can work on an incident with an orphaned attempt.  `RecoveryWorkflow.resume`
      would take up an unsolved attempt, but it is no event of its own: only `modify` calls it, with
      the attempt it has just reserved, which is the worker that `Modified` adds. */
  lemma {:induction false} OrphanRefusesAll(s: State, a: Id, i: Id, e: Event)
    requires Inv(s) && Orphan(s, a, i) && WorksOn(s, e) == Some(i)
    ensures !Enabled(s, e)
  {
    if e.EStart? || e.EStartOptions? {
      assert Of(s, a, i);
    } else if Of(s, e.attemptId, i) {
      OrphanIsAlone(s, a, i, e.attemptId);
    }
  }

  lemma {:induction false} OrphanStays(s: State, a: Id, i: Id, e: Event)
    requires Inv(s) && Orphan(s, a, i)
    ensures Orphan(Step(s, e), a, i) && Undisturbed(s, Step(s, e), i, a)
  {
    assert RowOk(s, a);
    if WorksOn(s, e) == Some(i) {
      OrphanRefusesAll(s, a, i, e);
    } else {
      OtherIncidentsUndisturbed(s, e, i, a);
    }
  }

  /** Whatever is attempted afterwards, the attempt stays unsolved, the incident stays as it is, and
      every further transaction on it is refused. */
  lemma {:induction false} OrphanBlocksForever(s: State, a: Id, i: Id, events: seq<Event>)
    requires Inv(s) && Orphan(s, a, i)
    ensures Orphan(Run(s, events), a, i)
    ensures i in s.incidents && i in Run(s, events).incidents && Run(s, events).incidents[i] == s.incidents[i]
    ensures forall e :: WorksOn(Run(s, events), e) == Some(i) ==> !Enabled(Run(s, events), e)
    decreases |events|
  {
    assert RowOk(s, a);
    RunKeepsInv(s, events);
    if events != [] {
      var n := |events| - 1;
      OrphanBlocksForever(s, a, i, events[..n]);
      RunKeepsInv(s, events[..n]);
      OrphanStays(Run(s, events[..n]), a, i, events[n]);
    }
    forall e | WorksOn(Run(s, events), e) == Some(i) ensures !Enabled(Run(s, events), e) {
      OrphanRefusesAll(Run(s, events), a, i, e);
    }
  }

  lemma {:induction false} RunTwo(s: State, e: Event, f: Event)
    ensures Run(s, [e, f]) == Step(Step(s, e), f)
  {
    assert [e, f][..1] == [e] && [e][..0] == [];
    assert Run(s, [e]) == Step(s, e);
  }

  /** A first attempt whose worker meets a conflict before it records an outcome is enough. */
  lemma {:induction false} ConflictOrphans(s: State, i: Id, a: Id)
    requires Inv(s) && CanStart(s, i, a)
    ensures Orphan(Run(s, [EStart(i, a), EAbandon(a)]), a, i)
  {
    RunTwo(s, EStart(i, a), EAbandon(a));
  }

  // ----- a single candidate that the review refuses -----

  /** The snapshot of its candidate passes the check of the review. */
  predicate Agrees(s: State, a: Id) {
    && a in s.attempts && s.attempts[a].candidate.Some? && s.attempts[a].candidate.value in s.plans
    && s.plans[s.attempts[a].candidate.value].consistent
  }

  /** Under review, not as an option, and inconsistent. */
  ghost predicate Unfit(s: State, a: Id, i: Id) {
    Pending(s, a, i) && !s.attempts[a].isOption && !Agrees(s, a)
  }

  ghost predicate HasUnfit(s: State, i: Id) {
    exists a :: Unfit(s, a, i)
  }

  /** While a single candidate is under review nobody works on the incident. */
  lemma {:induction false} SingleIsAlone(s: State, a: Id, i: Id, b: Id)
    requires Inv(s) && Pending(s, a, i) && !s.attempts[a].isOption && Of(s, b, i)
    ensures b in s.workers ==> s.workers[b] == Expanding && !NumberFree(s, i, s.attempts[b].no + 1)
    ensures Pending(s, b, i) ==> b == a
  {
    assert !AtTheEnd(s, b, i) && !Quiet(s, i);
    if b in s.workers {
      assert WorkerOk(s, b);
      if NumberFree(s, i, s.attempts[b].no + 1) { FreeNumberIsLast(s, i, b); }
    }
  }

  lemma {:induction false} FreeNumberIsLast(s: State, i: Id, b: Id)
    requires Inv(s) && Of(s, b, i) && NumberFree(s, i, s.attempts[b].no + 1)
    ensures IsLastAttempt(s, b, i)
  {
    forall c | c in s.attempts && s.attempts[c].incidentId == i ensures s.attempts[c].no <= s.attempts[b].no {
      FreeNumberIsBeyond(s, i, s.attempts[b].no + 1, c);
    }
  }

  /** `start` refuses because there are attempts, the options because a single candidate is under
      review, and every decision on the candidate because it is inconsistent. */
  lemma {:induction false} UnfitRefusesAll(s: State, a: Id, i: Id, e: Event)
    requires Inv(s) && Unfit(s, a, i) && WorksOn(s, e) == Some(i)
    ensures !Enabled(s, e)
  {
    if e.EStart? || e.EStartOptions? {
      assert Of(s, a, i);
    } else if Of(s, e.attemptId, i) {
      SingleIsAlone(s, a, i, e.attemptId);
    }
  }

  lemma {:induction false} UnfitStays(s: State, a: Id, i: Id, e: Event)
    requires Inv(s) && Unfit(s, a, i)
    ensures Unfit(Step(s, e), a, i) && Undisturbed(s, Step(s, e), i, a)
  {
    assert RowOk(s, a);
    if WorksOn(s, e) == Some(i) {
      UnfitRefusesAll(s, a, i, e);
    } else {
      OtherIncidentsUndisturbed(s, e, i, a);
      StepAdvances(s, e);
      assert Advances(s.plans, Step(s, e).plans, s.attempts[a].candidate.value);
    }
  }

  /** Whatever is attempted afterwards, the candidate stays under review, the incident stays as it is,
      and every further transaction on it is refused. */
  lemma {:induction false} UnfitBlocksForever(s: State, a: Id, i: Id, events: seq<Event>)
    requires Inv(s) && Unfit(s, a, i)
    ensures Unfit(Run(s, events), a, i)
    ensures i in s.incidents && i in Run(s, events).incidents && Run(s, events).incidents[i] == s.incidents[i]
    ensures forall e :: WorksOn(Run(s, events), e) == Some(i) ==> !Enabled(Run(s, events), e)
    decreases |events|
  {
    assert RowOk(s, a);
    RunKeepsInv(s, events);
    if events != [] {
      var n := |events| - 1;
      UnfitBlocksForever(s, a, i, events[..n]);
      RunKeepsInv(s, events[..n]);
      UnfitStays(Run(s, events[..n]), a, i, events[n]);
    }
    forall e | WorksOn(Run(s, events), e) == Some(i) ensures !Enabled(Run(s, events), e) {
      UnfitRefusesAll(Run(s, events), a, i, e);
    }
  }

  lemma {:induction false} ProposedIsUnfit(s: State, a: Id, p: Id, latest: Option<Id>)
    requires CanPropose(s, a, p, latest)
    ensures Unfit(Step(s, EPropose(a, p, latest, false)), a, s.attempts[a].incidentId)
  {
  }

  /** A first attempt that proposes an inconsistent candidate is enough. */
  lemma {:induction false} ProposalBlocks(s: State, i: Id, a: Id, p: Id, latest: Option<Id>)
    requires CanStart(s, i, a) && p !in s.plans
    requires IsLatest(s, s.plans[s.incidents[i].planId].date, latest) && latest.Some?
    ensures Unfit(Run(s, [EStart(i, a), EPropose(a, p, latest, false)]), a, i)
  {
    var t := Step(s, EStart(i, a));
    RunTwo(s, EStart(i, a), EPropose(a, p, latest, false));
    assert CanPropose(t, a, p, latest);
    ProposedIsUnfit(t, a, p, latest);
  }

  // ----- and nothing else blocks -----

  lemma {:induction false} UnusedId(used: set<Id>) returns (x: Id)
    ensures x !in used
  {
    x := 0;
    var rest := used;
    while rest != {}
      invariant forall y :: y in used && y !in rest ==> y < x
      decreases |rest|
    {
      var y :| y in rest;
      rest := rest - {y};
      if x <= y { x := y + 1; }
    }
  }

  /** Of the attempts of an incident one comes last. */
  lemma {:induction false} LastOf(s: State, i: Id, b: Id) returns (a: Id)
    requires Of(s, b, i)
    ensures IsLastAttempt(s, a, i)
  {
    a := b;
    var rest := s.attempts.Keys;
    while rest != {}
      invariant rest <= s.attempts.Keys && Of(s, a, i)
      invariant forall c :: c in s.attempts && c !in rest && s.attempts[c].incidentId == i ==> s.attempts[c].no <= s.attempts[a].no
      decreases |rest|
    {
      var c :| c in rest;
      rest := rest - {c};
      if s.attempts[c].incidentId == i && s.attempts[a].no < s.attempts[c].no { a := c; }
    }
  }

  /** An attempt under review can be decided, while its base is current, exactly when its candidate is
      consistent. */
  lemma {:induction false} PendingIsReviewable(s: State, a: Id, i: Id)
    requires Inv(s) && Pending(s, a, i) && BaseIsCurrent(s, i)
    ensures Reviewable(s, a) <==> Agrees(s, a)
  {
    assert RowOk(s, a);
  }

  /** A decision can be taken on the attempt. */
  ghost predicate Decidable(s: State, a: Id, i: Id) {
    Pending(s, a, i) && Agrees(s, a)
  }

  /** Its worker can go on to the next scope. */
  ghost predicate Widenable(s: State, a: Id, i: Id) {
    && IsLastAttempt(s, a, i) && a in s.workers && s.workers[a] == Expanding
    && NextScope(s.attempts[a].scope).Some? && Materializes(s, i, NextScope(s.attempts[a].scope).value)
  }

  /** There is something to go on with: a context to start from, or work under way. */
  ghost predicate HasWork(s: State, i: Id) {
    || Materializes(s, i, AffectedRoute)
    || (exists a :: Unsolved(s, a, i)) || (exists a :: Decidable(s, a, i)) || (exists a :: Widenable(s, a, i))
  }

  ghost predicate Proceeds(s: State, i: Id) {
    exists e :: Enabled(s, e) && WorksOn(s, e) == Some(i)
  }

  lemma {:induction false} CanRegenerate(s: State, i: Id) returns (e: Event)
    requires Inv(s) && Materializes(s, i, AffectedRoute)
    requires forall b :: !Unsolved(s, b, i) && (Pending(s, b, i) ==> s.attempts[b].isOption)
    ensures Enabled(s, e) && WorksOn(s, e) == Some(i)
  {
    var a := UnusedId(s.attempts.Keys);
    if b :| Of(s, b, i) {
      var last := LastOf(s, i, b);
      e := EStartOptions(i, a, Some(last), true, 0);
    } else {
      assert forall b :: b in s.attempts ==> !Of(s, b, i);
      e := EStart(i, a);
    }
  }

  lemma {:induction false} CanWiden(s: State, a: Id, i: Id) returns (e: Event)
    requires Inv(s) && Widenable(s, a, i)
    ensures Enabled(s, e) && WorksOn(s, e) == Some(i)
  {
    assert RowOk(s, a);
    var b := UnusedId(s.attempts.Keys);
    e := EExpand(a, b);
  }

  lemma {:induction false} CanProceed(s: State, i: Id) returns (e: Event)
    requires Inv(s) && BaseIsCurrent(s, i) && !HasOrphan(s, i) && !HasUnfit(s, i) && HasWork(s, i)
    ensures Enabled(s, e) && WorksOn(s, e) == Some(i)
  {
    if a :| Unsolved(s, a, i) {
      assert !Orphan(s, a, i);
      assert WorkerOk(s, a);
      e := EError(a);
    } else if a :| Decidable(s, a, i) {
      PendingIsReviewable(s, a, i);
      e := EReject(a, SYSTEM, 0);
    } else if a :| Widenable(s, a, i) {
      e := CanWiden(s, a, i);
    } else {
      forall b ensures Pending(s, b, i) ==> s.attempts[b].isOption {
        assert !Unfit(s, b, i) && !Decidable(s, b, i);
      }
      e := CanRegenerate(s, i);
    }
  }

  lemma {:induction false} EnabledHasWork(s: State, i: Id, e: Event)
    requires Inv(s) && Enabled(s, e) && WorksOn(s, e) == Some(i)
    ensures HasWork(s, i)
  {
    if e.EApprove? || e.EReject? || e.EModify? {
      assert Decidable(s, e.attemptId, i);
    } else if e.EExpand? {
      FreeNumberIsLast(s, i, e.attemptId);
      assert Widenable(s, e.attemptId, i);
    } else if !e.EStart? && !e.EStartOptions? {
      assert WorkerOk(s, e.attemptId);
      assert Unsolved(s, e.attemptId, i);
    }
  }

  /** An open incident of the current plan can be worked on exactly when no attempt of it was orphaned,
      no single candidate under review is inconsistent, and there is something to go on with. */
  lemma {:induction false} ProceedsIff(s: State, i: Id)
    requires Inv(s) && BaseIsCurrent(s, i)
    ensures Proceeds(s, i) <==> !HasOrphan(s, i) && !HasUnfit(s, i) && HasWork(s, i)
  {
    if e :| Enabled(s, e) && WorksOn(s, e) == Some(i) {
      EnabledHasWork(s, i, e);
      if a :| Orphan(s, a, i) { OrphanRefusesAll(s, a, i, e); }
      if a :| Unfit(s, a, i) { UnfitRefusesAll(s, a, i, e); }
    }
    if !HasOrphan(s, i) && !HasUnfit(s, i) && HasWork(s, i) {
      var e := CanProceed(s, i);
    }
  }

  /** As long as no target has an obstacle, these two are the only things that block an incident. */
  lemma {:induction false} ProceedsUnlessBlocked(s: State, i: Id)
    requires Inv(s) && Materializes(s, i, AffectedRoute)
    ensures Proceeds(s, i) <==> !HasOrphan(s, i) && !HasUnfit(s, i)
  {
    ProceedsIff(s, i);
  }
}

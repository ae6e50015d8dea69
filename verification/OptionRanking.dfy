/** The last step of an options run: duplicates are dropped, the rest is ranked, and all but the
    best are kept for the record only. */
module OptionRanking {
  import opened Ordering
  import opened Domain
  import opened Protocol
  import opened ProtocolLaws
  import opened ProtocolRuns
  import opened ProtocolHistory
  import opened ProtocolReview
  import Alternatives

  /** What options are compared by. */
  datatype Metrics = Metrics(unassigned: nat, reassigned: nat, changed: nat, handovers: nat, completion: Instant)

  type Kind = multiset<Alternatives.Tour>

  /** A candidate built from an alternative of some scope; its kind is its plan signature. */
  datatype Solved = Solved(scope: Scope, kind: Kind, metrics: Metrics)

  datatype Row = Row(attemptId: Id, no: nat, planId: Id, solved: Solved, priority: nat, status: AttemptStatus, planStatus: PlanStatus)

  /** The ids that are drawn for the k-th stored option. */
  datatype Ids = Ids(attemptId: nat -> Id, planId: nat -> Id)

  // ----- dropping duplicates -----

  function Kinds(solved: seq<Solved>): set<Kind> {
    set k | 0 <= k < |solved| :: solved[k].kind
  }

  /** The first candidate of each kind. */
  function Firsts(solved: seq<Solved>): seq<Solved> {
    if solved == [] then []
    else Firsts(solved[..|solved| - 1])
         + if solved[|solved| - 1].kind in Kinds(solved[..|solved| - 1]) then [] else [solved[|solved| - 1]]
  }

  /** The row of the k-th stored candidate; the first uses the reserved attempt. */
  function RowFor(x: Solved, k: nat, reserved: Id, no: nat, ids: Ids): Row {
    Row(if k == 0 then reserved else ids.attemptId(k), no + k, ids.planId(k), x, 0, PendingReview, PlanCandidate)
  }

  ghost predicate RowsFor(rows: seq<Row>, firsts: seq<Solved>, reserved: Id, no: nat, ids: Ids) {
    |rows| == |firsts| && forall k :: 0 <= k < |rows| ==> rows[k] == RowFor(firsts[k], k, reserved, no, ids)
  }

  ghost predicate NoTwins(solved: seq<Solved>) {
    forall i, j :: 0 <= i < j < |solved| ==> solved[i].kind != solved[j].kind
  }

  ghost predicate FirstOfKind(solved: seq<Solved>, k: int) {
    0 <= k < |solved| && forall j :: 0 <= j < k ==> solved[j].kind != solved[k].kind
  }

  ghost predicate IsFirstIn(solved: seq<Solved>, x: Solved) {
    exists k :: FirstOfKind(solved, k) && solved[k] == x
  }

  lemma {:induction false} KindsSnoc(solved: seq<Solved>, x: Solved)
    ensures Kinds(solved + [x]) == Kinds(solved) + {x.kind}
  {
    forall s ensures s in Kinds(solved + [x]) <==> s in Kinds(solved) || s == x.kind {
      if k :| 0 <= k < |solved| && solved[k].kind == s { assert (solved + [x])[k].kind == s; }
      if s == x.kind { assert (solved + [x])[|solved|].kind == s; }
    }
  }

  lemma {:induction false} FirstsSnoc(solved: seq<Solved>, x: Solved)
    ensures Firsts(solved + [x]) == Firsts(solved) + if x.kind in Kinds(solved) then [] else [x]
  {
    assert (solved + [x])[..|solved|] == solved;
  }

  /** Nothing but first candidates is stored, and of every kind one. */
  lemma {:induction false} FirstsAre(solved: seq<Solved>)
    ensures forall x :: x in Firsts(solved) <==> IsFirstIn(solved, x)
    ensures NoTwins(Firsts(solved))
    ensures Kinds(Firsts(solved)) == Kinds(solved)
  {
    if solved != [] {
      var front, last := solved[..|solved| - 1], solved[|solved| - 1];
      assert solved == front + [last];
      FirstsAre(front);
      KindsSnoc(front, last);
      KindsSnoc(Firsts(front), last);
      FirstsSnoc(front, last);
      FirstInSnoc(front, last);
      assert Firsts(front) + [] == Firsts(front);
      if last.kind !in Kinds(front) { OneMoreKind(Firsts(front), last); }
    }
  }

  lemma {:induction false} OneMoreKind(firsts: seq<Solved>, x: Solved)
    requires NoTwins(firsts) && x.kind !in Kinds(firsts)
    ensures NoTwins(firsts + [x])
  {
    forall i | 0 <= i < |firsts| ensures firsts[i].kind != x.kind {
      assert firsts[i].kind in Kinds(firsts);
    }
  }

  lemma {:induction false} FirstInSnoc(front: seq<Solved>, last: Solved)
    ensures forall x :: IsFirstIn(front + [last], x) <==> IsFirstIn(front, x) || (x == last && last.kind !in Kinds(front))
  {
    var solved := front + [last];
    forall k | 0 <= k < |front| ensures FirstOfKind(solved, k) == FirstOfKind(front, k) {
      assert forall j :: 0 <= j <= k ==> solved[j] == front[j];
    }
    assert FirstOfKind(solved, |front|) <==> last.kind !in Kinds(front) by {
      assert forall j :: 0 <= j < |front| ==> solved[j] == front[j];
    }
    forall x ensures IsFirstIn(solved, x) <==> IsFirstIn(front, x) || (x == last && last.kind !in Kinds(front)) {
      if k :| FirstOfKind(solved, k) && solved[k] == x {
        if k < |front| { assert FirstOfKind(front, k) && front[k] == x; }
      }
      if k :| FirstOfKind(front, k) && front[k] == x { assert FirstOfKind(solved, k) && solved[k] == x; }
      if x == last { assert solved[|front|] == x; }
    }
  }

  lemma {:induction false} RowsForSnoc(rows: seq<Row>, firsts: seq<Solved>, x: Solved, reserved: Id, no: nat, ids: Ids)
    requires RowsFor(rows, firsts, reserved, no, ids)
    ensures RowsFor(rows + [RowFor(x, |rows|, reserved, no, ids)], firsts + [x], reserved, no, ids)
  {
  }

  /** The loop over the solved candidates. */
  method StoreRows(solved: seq<Solved>, reserved: Id, no: nat, ids: Ids) returns (rows: seq<Row>)
    ensures RowsFor(rows, Firsts(solved), reserved, no, ids)
  {
    rows := [];
    var kinds: set<Kind> := {};
    var k := 0;
    while k < |solved|
      invariant 0 <= k <= |solved| && kinds == Kinds(solved[..k])
      invariant RowsFor(rows, Firsts(solved[..k]), reserved, no, ids)
    {
      var x := solved[k];
      assert solved[..k + 1] == solved[..k] + [x];
      KindsSnoc(solved[..k], x);
      FirstsSnoc(solved[..k], x);
      if x.kind !in kinds {
        RowsForSnoc(rows, Firsts(solved[..k]), x, reserved, no, ids);
        var number := if rows == [] then no else rows[|rows| - 1].no + 1;
        var row := Row(if rows == [] then reserved else ids.attemptId(|rows|), number, ids.planId(|rows|), x, 0, PendingReview, PlanCandidate);
        assert row == RowFor(x, |rows|, reserved, no, ids);
        rows, kinds := rows + [row], kinds + {x.kind};
      } else {
        assert Firsts(solved[..k]) + [] == Firsts(solved[..k]);
      }
      k := k + 1;
    }
    assert solved[..|solved|] == solved;
  }

  // ----- ranking -----

  /** priority_key, then the attempt number. */
  predicate Precedes(a: Row, b: Row) {
    var x, y := a.solved.metrics, b.solved.metrics;
    if x.unassigned != y.unassigned then x.unassigned < y.unassigned
    else if x.reassigned != y.reassigned then x.reassigned < y.reassigned
    else if x.changed != y.changed then x.changed < y.changed
    else if x.handovers != y.handovers then x.handovers < y.handovers
    else if x.completion != y.completion then x.completion < y.completion
    else a.no < b.no
  }

  ghost predicate InOrder(rows: seq<Row>) {
    forall i, j :: 0 <= i < j < |rows| ==> Precedes(rows[i], rows[j])
  }

  ghost predicate DistinctNumbers(rows: seq<Row>) {
    forall i, j :: 0 <= i < j < |rows| ==> rows[i].no != rows[j].no
  }

  function InsertRow(rows: seq<Row>, row: Row): seq<Row> {
    if rows == [] then [row]
    else if Precedes(row, rows[|rows| - 1]) then InsertRow(rows[..|rows| - 1], row) + [rows[|rows| - 1]]
    else rows + [row]
  }

  /** `rows.sort`. */
  function Ranked(rows: seq<Row>): seq<Row> {
    if rows == [] then [] else InsertRow(Ranked(rows[..|rows| - 1]), rows[|rows| - 1])
  }

  lemma {:induction false} PrecedesIsTotal(a: Row, b: Row, c: Row)
    requires (a == b || Precedes(a, b)) && !Precedes(c, b) && b.no != c.no
    ensures Precedes(a, c)
  {
  }

  ghost predicate AllPrecede(rows: seq<Row>, x: Row) {
    forall i :: 0 <= i < |rows| ==> Precedes(rows[i], x)
  }

  lemma {:induction false} InsertAdds(rows: seq<Row>, row: Row)
    ensures multiset(InsertRow(rows, row)) == multiset(rows) + multiset{row} && |InsertRow(rows, row)| == |rows| + 1
  {
    if rows != [] {
      assert rows == rows[..|rows| - 1] + [rows[|rows| - 1]];
      InsertAdds(rows[..|rows| - 1], row);
    }
  }

  lemma {:induction false} InsertStaysBefore(rows: seq<Row>, row: Row, x: Row)
    requires AllPrecede(rows, x) && Precedes(row, x)
    ensures AllPrecede(InsertRow(rows, row), x)
  {
    if rows != [] { InsertStaysBefore(rows[..|rows| - 1], row, x); }
  }

  lemma {:induction false} InsertKeepsOrder(rows: seq<Row>, row: Row)
    requires InOrder(rows) && forall i :: 0 <= i < |rows| ==> rows[i].no != row.no
    ensures InOrder(InsertRow(rows, row))
  {
    if rows != [] {
      var front, last := rows[..|rows| - 1], rows[|rows| - 1];
      if Precedes(row, last) {
        InsertKeepsOrder(front, row);
        InsertStaysBefore(front, row, last);
      } else {
        forall i | 0 <= i < |rows| ensures Precedes(rows[i], row) {
          assert i < |rows| - 1 ==> Precedes(rows[i], last);
          PrecedesIsTotal(rows[i], last, row);
        }
      }
    }
  }

  /** Ranking orders the rows and loses none. */
  lemma {:induction false} RankedSorts(rows: seq<Row>)
    requires DistinctNumbers(rows)
    ensures InOrder(Ranked(rows)) && multiset(Ranked(rows)) == multiset(rows) && |Ranked(rows)| == |rows|
  {
    if rows != [] {
      var front, last := rows[..|rows| - 1], rows[|rows| - 1];
      assert rows == front + [last];
      RankedSorts(front);
      forall i | 0 <= i < |Ranked(front)| ensures Ranked(front)[i].no != last.no {
        assert Ranked(front)[i] in multiset(Ranked(front));
        assert Ranked(front)[i] in front;
      }
      InsertKeepsOrder(Ranked(front), last);
      InsertAdds(Ranked(front), last);
    }
  }

  lemma {:induction false} LastIsGreatest(rows: seq<Row>, row: Row)
    requires InOrder(rows) && row in rows
    ensures row == rows[|rows| - 1] || Precedes(row, rows[|rows| - 1])
  {
    var i :| 0 <= i < |rows| && rows[i] == row;
  }

  lemma {:induction false} SameLast(a: seq<Row>, b: seq<Row>)
    requires InOrder(a) && InOrder(b) && multiset(a) == multiset(b) && a != []
    ensures b != [] && a[|a| - 1] == b[|b| - 1]
  {
    assert a[|a| - 1] in multiset(b);
    LastIsGreatest(b, a[|a| - 1]);
    assert b[|b| - 1] in multiset(a);
    LastIsGreatest(a, b[|b| - 1]);
  }

  lemma {:induction false} FrontOf(rows: seq<Row>)
    requires rows != []
    ensures multiset(rows[..|rows| - 1]) == multiset(rows) - multiset{rows[|rows| - 1]}
  {
    assert rows == rows[..|rows| - 1] + [rows[|rows| - 1]];
  }

  /** There is only one such order. */
  lemma {:induction false} OrderIsUnique(a: seq<Row>, b: seq<Row>)
    requires InOrder(a) && InOrder(b) && multiset(a) == multiset(b)
    ensures a == b
    decreases |a|
  {
    if a == [] {
      assert |multiset(b)| == 0;
    } else {
      SameLast(a, b);
      FrontOf(a);
      FrontOf(b);
      OrderIsUnique(a[..|a| - 1], b[..|b| - 1]);
      assert a == a[..|a| - 1] + [a[|a| - 1]] && b == b[..|b| - 1] + [b[|b| - 1]];
    }
  }

  // ----- the cut-off -----

  /** A row at position i of the ranking. */
  function Judged(row: Row, i: nat, max: nat): Row {
    if i < max then row.(priority := i + 1) else row.(priority := i + 1, status := Draft, planStatus := PlanCancelled)
  }

  ghost predicate Settled(final: seq<Row>, rows: seq<Row>, max: nat) {
    |final| == |rows| && forall i :: 0 <= i < |final| ==> final[i] == Judged(rows[i], i, max)
  }

  /** The rows are sorted in place, then marked one by one. */
  method RankAndCut(rows: array<Row>, max: nat)
    requires DistinctNumbers(rows[..])
    modifies rows
    ensures Settled(rows[..], Ranked(old(rows[..])), max)
  {
    ghost var was := rows[..];
    RankedSorts(rows[..]);
    var sorted := Ranked(rows[..]);
    forall k | 0 <= k < rows.Length {
      rows[k] := sorted[k];
    }
    var i := 0;
    while i < rows.Length
      invariant 0 <= i <= rows.Length && sorted == Ranked(was) && |sorted| == rows.Length
      invariant forall k :: 0 <= k < i ==> rows[k] == Judged(sorted[k], k, max)
      invariant forall k :: i <= k < rows.Length ==> rows[k] == sorted[k]
    {
      rows[i] := rows[i].(priority := i + 1);
      if max <= i {
        rows[i] := rows[i].(status := Draft, planStatus := PlanCancelled);
      }
      i := i + 1;
    }
  }

  lemma {:induction false} StoredRowsAreDistinct(rows: seq<Row>, firsts: seq<Solved>, reserved: Id, no: nat, ids: Ids)
    requires RowsFor(rows, firsts, reserved, no, ids)
    ensures DistinctNumbers(rows)
  {
  }

  /** Ranked rows are of different kinds, as the stored ones are. */
  lemma {:induction false} RankedKindsDiffer(rows: seq<Row>, firsts: seq<Solved>, reserved: Id, no: nat, ids: Ids, i: nat, j: nat)
    requires RowsFor(rows, firsts, reserved, no, ids) && NoTwins(firsts)
    requires InOrder(Ranked(rows)) && multiset(Ranked(rows)) == multiset(rows) && i < j < |Ranked(rows)|
    ensures Ranked(rows)[i].solved.kind != Ranked(rows)[j].solved.kind
  {
    var ranked := Ranked(rows);
    assert ranked[i] in multiset(rows) && ranked[j] in multiset(rows);
    var k :| 0 <= k < |rows| && rows[k] == ranked[i];
    var m :| 0 <= m < |rows| && rows[m] == ranked[j];
    assert Precedes(ranked[i], ranked[j]);
    assert k != m;
  }

  /** Whatever was solved: priorities count from 1 in the order of the criteria; the first max rows
      are up for review, the others only on record with a cancelled plan; no two rows are of the
      same kind, and every kind that was solved has one. */
  lemma {:induction false} RankingAndCutOff(solved: seq<Solved>, rows: seq<Row>, final: seq<Row>, reserved: Id, no: nat, ids: Ids, max: nat)
    requires RowsFor(rows, Firsts(solved), reserved, no, ids) && Settled(final, Ranked(rows), max)
    ensures |final| == |Kinds(solved)|
    ensures forall i :: 0 <= i < |final| ==> final[i].priority == i + 1
    ensures forall i, j :: 0 <= i < j < |final| ==> Precedes(final[i], final[j]) && final[i].solved.kind != final[j].solved.kind
    ensures forall i :: 0 <= i < |final| && i < max ==> final[i].status == PendingReview && final[i].planStatus == PlanCandidate
    ensures forall i :: max <= i < |final| ==> final[i].status == Draft && final[i].planStatus == PlanCancelled
  {
    StoredRowsAreDistinct(rows, Firsts(solved), reserved, no, ids);
    RankedSorts(rows);
    FirstsAre(solved);
    NoTwinsCount(Firsts(solved));
    forall i, j | 0 <= i < j < |final| ensures Precedes(final[i], final[j]) && final[i].solved.kind != final[j].solved.kind {
      assert Precedes(Ranked(rows)[i], Ranked(rows)[j]);
      RankedKindsDiffer(rows, Firsts(solved), reserved, no, ids, i, j);
    }
    RankedAreNew(rows, Firsts(solved), reserved, no, ids);
  }

  lemma {:induction false} RankedAreNew(rows: seq<Row>, firsts: seq<Solved>, reserved: Id, no: nat, ids: Ids)
    requires RowsFor(rows, firsts, reserved, no, ids) && multiset(Ranked(rows)) == multiset(rows)
    ensures forall i :: 0 <= i < |Ranked(rows)| ==> Ranked(rows)[i].status == PendingReview && Ranked(rows)[i].planStatus == PlanCandidate
  {
    forall i | 0 <= i < |Ranked(rows)| ensures Ranked(rows)[i].status == PendingReview && Ranked(rows)[i].planStatus == PlanCandidate {
      assert Ranked(rows)[i] in multiset(rows);
    }
  }

  lemma {:induction false} NoTwinsCount(solved: seq<Solved>)
    requires NoTwins(solved)
    ensures |Kinds(solved)| == |solved|
  {
    if solved == [] {
      assert Kinds(solved) == {};
    } else {
      var front, last := solved[..|solved| - 1], solved[|solved| - 1];
      assert solved == front + [last];
      NoTwinsCount(front);
      KindsSnoc(front, last);
    }
  }

  // ----- what the protocol gets -----

  ghost predicate OptionsFor(options: seq<Option_>, rows: seq<Row>) {
    |options| == |rows| && forall k :: 0 <= k < |rows| ==>
      options[k].attemptId == rows[k].attemptId && options[k].planId == rows[k].planId && options[k].scope == rows[k].solved.scope
  }

  function BeyondLimit(final: seq<Row>, max: nat): set<Id> {
    set i | max <= i < |final| :: final[i].attemptId
  }

  ghost predicate AmongBest(final: seq<Row>, max: nat, b: Id) {
    exists i :: 0 <= i < |final| && i < max && final[i].attemptId == b
  }

  ghost predicate DistinctAttempts(rows: seq<Row>) {
    forall i, j :: 0 <= i < j < |rows| ==> rows[i].attemptId != rows[j].attemptId
  }

  ghost predicate HasAttempt(rows: seq<Row>, b: Id) {
    exists k :: 0 <= k < |rows| && rows[k].attemptId == b
  }

  lemma {:induction false} RankedAttempts(rows: seq<Row>, final: seq<Row>, max: nat)
    requires DistinctNumbers(rows) && DistinctAttempts(rows) && Settled(final, Ranked(rows), max)
    ensures DistinctAttempts(final)
    ensures forall b :: HasAttempt(rows, b) <==> HasAttempt(final, b)
  {
    var ranked := Ranked(rows);
    RankedSorts(rows);
    forall i, j | 0 <= i < j < |final| ensures final[i].attemptId != final[j].attemptId {
      assert ranked[i] in multiset(rows) && ranked[j] in multiset(rows);
      var k :| 0 <= k < |rows| && rows[k] == ranked[i];
      var m :| 0 <= m < |rows| && rows[m] == ranked[j];
      assert Precedes(ranked[i], ranked[j]);
      assert k != m;
    }
    forall k | 0 <= k < |rows| ensures HasAttempt(final, rows[k].attemptId) {
      assert rows[k] in multiset(ranked);
      var i :| 0 <= i < |ranked| && ranked[i] == rows[k];
      assert final[i].attemptId == rows[k].attemptId;
    }
    forall i | 0 <= i < |final| ensures HasAttempt(rows, final[i].attemptId) {
      assert ranked[i] in multiset(rows);
      var k :| 0 <= k < |rows| && rows[k] == ranked[i];
    }
  }

  lemma {:induction false} OptionsAndRows(options: seq<Option_>, rows: seq<Row>, b: Id)
    requires OptionsFor(options, rows)
    ensures IsOption(options, |options|, b) <==> HasAttempt(rows, b)
  {
    if k :| 0 <= k < |rows| && rows[k].attemptId == b { assert options[k].attemptId == b; }
  }

  lemma {:induction false} BestAreNotBeyond(final: seq<Row>, max: nat, b: Id)
    requires DistinctAttempts(final)
    ensures AmongBest(final, max, b) <==> HasAttempt(final, b) && b !in BeyondLimit(final, max)
  {
    if i :| 0 <= i < |final| && i < max && final[i].attemptId == b {
      assert HasAttempt(final, b);
    }
  }

  lemma {:induction false} StoredAttemptsDiffer(s: State, a: Id, rows: seq<Row>, options: seq<Option_>, latests: seq<Option<Id>>, beyond: set<Id>)
    requires CanStoreOptions(s, a, options, latests, beyond) && OptionsFor(options, rows)
    ensures DistinctAttempts(rows)
  {
    OptionIdsAreDistinct(s, a, options, latests, |options|);
    forall i, j | 0 <= i < j < |rows| ensures rows[i].attemptId != rows[j].attemptId {
      assert options[i].attemptId != options[j].attemptId;
    }
  }

  /** When the batch is stored with this cut-off, exactly the best options are under review. */
  lemma {:induction false} TheBestAreUnderReview(s: State, a: Id, rows: seq<Row>, final: seq<Row>, max: nat, options: seq<Option_>, latests: seq<Option<Id>>, b: Id)
    requires Inv(s) && OptionsFor(options, rows) && options != [] && DistinctNumbers(rows) && Settled(final, Ranked(rows), max)
    requires CanStoreOptions(s, a, options, latests, BeyondLimit(final, max))
    ensures Pending(OptionsStored(s, a, options, latests, BeyondLimit(final, max)), b, s.attempts[a].incidentId) <==> AmongBest(final, max, b)
  {
    StoredAttemptsDiffer(s, a, rows, options, latests, BeyondLimit(final, max));
    RankedAttempts(rows, final, max);
    StoredUnderReview(s, a, options, latests, BeyondLimit(final, max), b);
    OptionsAndRows(options, rows, b);
    BestAreNotBeyond(final, max, b);
  }
}

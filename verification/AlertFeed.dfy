/** The risk-alert change feed: writers that allocate cursor values inside a
    transaction, and clients that poll with the cursor of their last page.

    Every step below is atomic in PostgreSQL.  Writers interleave freely with one
    another and with clients.  A transaction that has allocated values may still
    abort, which leaves gaps. */
module AlertFeed {
  import opened Ordering

  /** The contents of a change other than its cursor value. */
  type Payload = nat

  /** Rows of risk_alert_changes by change_id. */
  type Rows = map<nat, Payload>

  /** A polling client: where it started, its last `next_cursor`, the identifiers it was
      sent in the order of arrival, and their contents. */
  datatype Client = Client(start: nat, cursor: nat, received: seq<nat>, contents: Rows)

  /** `next` is the value the sequence hands out next, `holder` the transaction that
      holds the advisory lock, `open` the uncommitted rows of every open transaction,
      `table` the committed rows. */
  datatype Feed = Feed(
    next: nat,
    holder: Option<nat>,
    open: map<nat, Rows>,
    table: Rows,
    clients: map<nat, Client>)

  datatype Event =
    | Begin(txn: nat)
    | TakeLock(txn: nat)
    | Allocate(txn: nat, payload: Payload)
    | Commit(txn: nat)
    | Abort(txn: nat)
    | Join(client: nat, start: nat)
    | Poll(client: nat, limit: nat)

  const EmptyFeed := Feed(1, None, map[], map[], map[])

  /** Committed identifiers in the half-open interval (after, upto]. */
  function Between(table: Rows, after: nat, upto: nat): set<nat> {
    set id | id in table.Keys && after < id <= upto
  }

  function Above(table: Rows, after: nat): set<nat> {
    set id | id in table.Keys && after < id
  }

  /** `list_changes`: WHERE change_id > after ORDER BY change_id LIMIT limit. */
  ghost function ListChanges(table: Rows, after: nat, limit: nat): seq<nat> {
    var ids := Ascending(Above(table, after));
    if |ids| <= limit then ids else ids[..limit]
  }

  /** The response of GET /operations/alerts/changes and the client's next request. */
  ghost function Polled(c: Client, table: Rows, limit: nat): Client {
    var page := ListChanges(table, c.cursor, limit);
    Client(c.start,
           if page == [] then c.cursor else page[|page| - 1],
           c.received + page,
           c.contents + map id | id in page && id in table :: table[id])
  }

  function Put(rows: Rows, id: nat, payload: Payload): Rows {
    rows[id := payload]
  }

  function Release(holder: Option<nat>, txn: nat): Option<nat> {
    if holder == Some(txn) then None else holder
  }

  /** An event that is not enabled leaves the feed as it is: a writer that waits for
      the lock simply makes no step. */
  ghost function Step(f: Feed, e: Event): Feed {
    match e
    case Begin(t) =>
      if t in f.open then f else f.(open := f.open[t := map[]])
    case TakeLock(t) =>
      if t in f.open && f.holder == None then f.(holder := Some(t)) else f
    case Allocate(t, p) =>
      if t in f.open && f.holder == Some(t)
      then f.(next := f.next + 1, open := f.open[t := Put(f.open[t], f.next, p)])
      else f
    case Commit(t) =>
      if t in f.open
      then f.(table := f.table + f.open[t], open := f.open - {t}, holder := Release(f.holder, t))
      else f
    case Abort(t) =>
      if t in f.open then f.(open := f.open - {t}, holder := Release(f.holder, t)) else f
    case Join(c, start) =>
      if c in f.clients then f else f.(clients := f.clients[c := Client(start, start, [], map[])])
    case Poll(c, limit) =>
      if c in f.clients && 1 <= limit <= 100
      then f.(clients := f.clients[c := Polled(f.clients[c], f.table, limit)])
      else f
  }

  ghost function Run(f: Feed, events: seq<Event>): Feed {
    if events == [] then f else Step(Run(f, events[..|events| - 1]), events[|events| - 1])
  }

  // ----- the invariant -----

  /** Uncommitted rows exist only under the lock, and lie above everything committed. */
  ghost predicate PendingOk(f: Feed, t: nat)
    requires t in f.open
  {
    && (f.open[t] != map[] ==> f.holder == Some(t))
    && (forall id :: id in f.open[t] ==> id < f.next)
    && (forall id, old_ :: id in f.open[t] && old_ in f.table ==> old_ < id)
  }

  /** What a client was sent is exactly what is committed up to its cursor. */
  ghost predicate Exact(c: Client, table: Rows) {
    && (c.cursor == c.start || (c.start < c.cursor && c.cursor in table))
    && c.received == Ascending(Between(table, c.start, c.cursor))
    && c.contents.Keys == Between(table, c.start, c.cursor)
    && (forall id :: id in c.contents && id in table ==> c.contents[id] == table[id])
  }

  ghost predicate Inv(f: Feed) {
    && (forall id :: id in f.table ==> id < f.next)
    && (forall t :: t in f.open ==> PendingOk(f, t))
    && (forall c :: c in f.clients ==> Exact(f.clients[c], f.table))
  }

  /** Committing rows above every committed identifier changes nothing at or below a cursor. */
  lemma {:induction false} CommitKeepsExact(c: Client, table: Rows, rows: Rows)
    requires Exact(c, table)
    requires forall id, old_ :: id in rows && old_ in table ==> old_ < id
    ensures Exact(c, table + rows)
  {
    assert Between(table + rows, c.start, c.cursor) == Between(table, c.start, c.cursor);
  }

  /** A page is the initial stretch of the identifiers above the cursor. */
  lemma {:induction false} PageIsPrefix(table: Rows, after: nat, limit: nat)
    requires 1 <= limit
    ensures var page := ListChanges(table, after, limit);
            && Increasing(page)
            && |page| == (if |Above(table, after)| <= limit then |Above(table, after)| else limit)
            && (page == [] ==> Above(table, after) == {})
            && (page != [] ==> forall id :: id in page <==> id in Above(table, after) && id <= page[|page| - 1])
  {
    var ids := Ascending(Above(table, after));
    AscendingSorts(Above(table, after));
    var page := ListChanges(table, after, limit);
    if page != [] {
      PrefixIsBelow(ids, page);
    }
  }

  /** The elements of a prefix of sorted ids are those up to its last. */
  lemma {:induction false} PrefixIsBelow(ids: seq<nat>, page: seq<nat>)
    requires Increasing(ids) && page != [] && |page| <= |ids| && ids[..|page|] == page
    ensures forall id :: id in page <==> id in ids && id <= page[|page| - 1]
  {
    assert forall i :: 0 <= i < |page| ==> page[i] == ids[i];
    forall id ensures id in page <==> id in ids && id <= page[|page| - 1] {
      if id in ids {
        var i :| 0 <= i < |ids| && ids[i] == id;
        assert i < |page| ==> page[i] == id;
        assert |page| <= i ==> ids[|page| - 1] < ids[i];
      }
      if id in page {
        var i :| 0 <= i < |page| && page[i] == id;
        assert i < |page| - 1 ==> ids[i] < ids[|page| - 1];
      }
    }
  }

  lemma {:induction false} PageSpans(table: Rows, start: nat, cursor: nat, limit: nat)
    requires 1 <= limit && start <= cursor && ListChanges(table, cursor, limit) != []
    ensures var page := ListChanges(table, cursor, limit); var last := page[|page| - 1];
            && cursor < last && last in table
            && Between(table, start, last) == Between(table, start, cursor) + set id | id in page
  {
    PageIsPrefix(table, cursor, limit);
    var page := ListChanges(table, cursor, limit);
    assert page[|page| - 1] in page;
  }

  /** A page continues the ordered listing exactly where the cursor stands. */
  lemma {:induction false} PageContinues(table: Rows, start: nat, cursor: nat, limit: nat)
    requires 1 <= limit && start <= cursor && ListChanges(table, cursor, limit) != []
    ensures var page := ListChanges(table, cursor, limit);
            Ascending(Between(table, start, cursor)) + page == Ascending(Between(table, start, page[|page| - 1]))
  {
    var page := ListChanges(table, cursor, limit);
    var before := Ascending(Between(table, start, cursor));
    var wider := Between(table, start, page[|page| - 1]);
    PageIsPrefix(table, cursor, limit);
    PageSpans(table, start, cursor, limit);
    AscendingSorts(Between(table, start, cursor));
    IncreasingConcat(before, page);
    AscendingUnique(before + page, wider);
  }

  lemma {:induction false} PollExact(c: Client, table: Rows, limit: nat)
    requires Exact(c, table) && 1 <= limit
    ensures Exact(Polled(c, table, limit), table)
  {
    var page := ListChanges(table, c.cursor, limit);
    if page == [] {
      assert c.received + page == c.received;
    } else {
      PageSpans(table, c.start, c.cursor, limit);
      PageContinues(table, c.start, c.cursor, limit);
    }
  }

  lemma {:induction false} CommitKeepsInv(f: Feed, t: nat)
    requires Inv(f) && t in f.open
    ensures Inv(Step(f, Commit(t)))
  {
    var g := Step(f, Commit(t));
    assert PendingOk(f, t);
    forall u | u in g.open ensures PendingOk(g, u) {
      assert PendingOk(f, u);
    }
    forall c | c in g.clients ensures Exact(g.clients[c], g.table) {
      CommitKeepsExact(f.clients[c], f.table, f.open[t]);
    }
  }

  /** A step that neither allocates nor commits keeps the writers' part. */
  lemma {:induction false} WritersKeepInv(f: Feed, e: Event)
    requires Inv(f) && (e.Begin? || e.TakeLock? || e.Abort?)
    ensures Inv(Step(f, e))
  {
    var g := Step(f, e);
    forall u | u in g.open ensures PendingOk(g, u) {
      assert u in f.open ==> PendingOk(f, u);
    }
  }

  lemma {:induction false} AllocateKeepsInv(f: Feed, t: nat, p: Payload)
    requires Inv(f)
    ensures Inv(Step(f, Allocate(t, p)))
  {
    var g := Step(f, Allocate(t, p));
    forall u | u in g.open ensures PendingOk(g, u) {
      assert PendingOk(f, u);
    }
  }

  lemma {:induction false} ClientsKeepInv(f: Feed, e: Event)
    requires Inv(f) && (e.Join? || e.Poll?)
    ensures Inv(Step(f, e))
  {
    var g := Step(f, e);
    if e.Poll? && e.client in f.clients && 1 <= e.limit <= 100 {
      PollExact(f.clients[e.client], f.table, e.limit);
    }
    if e.Join? {
      assert Between(f.table, e.start, e.start) == {};
    }
    forall u | u in g.open ensures PendingOk(g, u) {
      assert PendingOk(f, u);
    }
  }

  lemma {:induction false} StepKeepsInv(f: Feed, e: Event)
    requires Inv(f)
    ensures Inv(Step(f, e))
  {
    match e {
      case Commit(t) => if t in f.open { CommitKeepsInv(f, t); }
      case Allocate(t, p) => AllocateKeepsInv(f, t, p);
      case Join(_, _) => ClientsKeepInv(f, e);
      case Poll(_, _) => ClientsKeepInv(f, e);
      case _ => WritersKeepInv(f, e);
    }
  }

  lemma {:induction false} RunKeepsInv(events: seq<Event>)
    ensures Inv(Run(EmptyFeed, events))
    decreases |events|
  {
    if events != [] {
      RunKeepsInv(events[..|events| - 1]);
      StepKeepsInv(Run(EmptyFeed, events[..|events| - 1]), events[|events| - 1]);
    }
  }

  // ----- main results -----

  /** No change is ever missed, repeated or reordered: over every interleaving, a client
      has been sent each committed change in (start, cursor] exactly once, in cursor
      order and with the committed contents, and nothing else. */
  lemma {:induction false} NoChangeIsMissed(events: seq<Event>, c: nat)
    requires c in Run(EmptyFeed, events).clients
    ensures var f := Run(EmptyFeed, events); var client := f.clients[c];
            && Increasing(client.received)
            && (forall id :: id in client.received <==> id in f.table && client.start < id <= client.cursor)
            && (forall id :: id in client.received ==> id in client.contents && client.contents[id] == f.table[id])
  {
    RunKeepsInv(events);
    var f := Run(EmptyFeed, events);
    assert Exact(f.clients[c], f.table);
    AscendingSorts(Between(f.table, f.clients[c].start, f.clients[c].cursor));
  }

  lemma {:induction false} StepKeepsTableBelow(f: Feed, e: Event, id: nat, cursor: nat)
    requires Inv(f)
    requires cursor in f.table && id <= cursor
    ensures cursor in Step(f, e).table
    ensures id in Step(f, e).table <==> id in f.table
    ensures id in f.table ==> Step(f, e).table[id] == f.table[id]
  {
    if e.Commit? && e.txn in f.open {
      assert PendingOk(f, e.txn);
    }
  }

  /** At or below a committed identifier the table is final: whatever writers do later,
      nothing appears, disappears or changes there. */
  lemma {:induction false} HistoryBelowCursorIsFinal(early: seq<Event>, late: seq<Event>, id: nat, cursor: nat)
    requires cursor in Run(EmptyFeed, early).table && id <= cursor
    ensures cursor in Run(EmptyFeed, early + late).table
    ensures id in Run(EmptyFeed, early + late).table <==> id in Run(EmptyFeed, early).table
    ensures id in Run(EmptyFeed, early).table ==>
              Run(EmptyFeed, early + late).table[id] == Run(EmptyFeed, early).table[id]
    decreases |late|
  {
    if late == [] {
      assert early + late == early;
    } else {
      var front := late[..|late| - 1];
      assert (early + late)[..|early + late| - 1] == early + front;
      HistoryBelowCursorIsFinal(early, front, id, cursor);
      RunKeepsInv(early + front);
      StepKeepsTableBelow(Run(EmptyFeed, early + front), late[|late| - 1], id, cursor);
    }
  }

  ghost function PollTimes(c: Client, table: Rows, limit: nat, times: nat): Client {
    if times == 0 then c else Polled(PollTimes(c, table, limit, times - 1), table, limit)
  }

  function OnePageLess(backlog: nat, limit: nat): nat {
    if backlog <= limit then 0 else backlog - limit
  }

  lemma {:induction false} PollShrinks(c: Client, table: Rows, limit: nat)
    requires 1 <= limit
    ensures var before, after := |Above(table, c.cursor)|, |Above(table, Polled(c, table, limit).cursor)|;
            after == OnePageLess(before, limit)
  {
    PageIsPrefix(table, c.cursor, limit);
    var page := ListChanges(table, c.cursor, limit);
    var d := Polled(c, table, limit);
    if page != [] {
      var sent := set id | id in page;
      assert d.cursor in page;
      assert Above(table, d.cursor) == Above(table, c.cursor) - sent;
      assert sent <= Above(table, c.cursor);
      AscendingUnique(page, sent);
    }
  }

  /** What is left of a backlog after so many pages. */
  function LeftAfter(backlog: nat, limit: nat, times: nat): nat {
    if times == 0 then backlog else OnePageLess(LeftAfter(backlog, limit, times - 1), limit)
  }

  lemma {:induction false} LeftAfterIs(backlog: nat, limit: nat, times: nat)
    ensures LeftAfter(backlog, limit, times) == if backlog <= times * limit then 0 else backlog - times * limit
  {
    if 0 < times {
      LeftAfterIs(backlog, limit, times - 1);
      assert times * limit == (times - 1) * limit + limit && 0 <= (times - 1) * limit;
    }
  }

  lemma {:induction false} BacklogAfterPolls(c: Client, table: Rows, limit: nat, times: nat)
    requires Exact(c, table) && 1 <= limit
    ensures var d := PollTimes(c, table, limit, times);
            && Exact(d, table) && d.start == c.start
            && |Above(table, d.cursor)| == LeftAfter(|Above(table, c.cursor)|, limit, times)
  {
    if times > 0 {
      BacklogAfterPolls(c, table, limit, times - 1);
      var d := PollTimes(c, table, limit, times - 1);
      PollShrinks(d, table, limit);
      PollExact(d, table, limit);
    }
  }

  /** Polling catches up: while writers are quiet, a client that polls often enough for its
      backlog has been sent everything committed after its start. */
  lemma {:induction false} PollingCatchesUp(c: Client, table: Rows, limit: nat, times: nat)
    requires Exact(c, table) && 1 <= limit
    requires |Above(table, c.cursor)| <= times * limit
    ensures forall id :: id in table && c.start < id ==> id in PollTimes(c, table, limit, times).received
  {
    BacklogAfterPolls(c, table, limit, times);
    LeftAfterIs(|Above(table, c.cursor)|, limit, times);
    var d := PollTimes(c, table, limit, times);
    assert Above(table, d.cursor) == {};
    forall id | id in table && c.start < id ensures id in d.received {
      assert id !in Above(table, d.cursor);
      assert id in Between(table, c.start, d.cursor);
      AscendingSorts(Between(table, c.start, d.cursor));
    }
  }

  // ----- why the lock is taken before the sequence is advanced -----

  /** The same writer without the advisory lock. */
  function AllocateUnlocked(f: Feed, t: nat, p: Payload): Feed
    requires t in f.open
  {
    f.(next := f.next + 1, open := f.open[t := Put(f.open[t], f.next, p)])
  }

  lemma {:induction false} RunThree(f: Feed, a: Event, b: Event, c: Event)
    ensures Run(f, [a, b, c]) == Step(Step(Step(f, a), b), c)
  {
    assert [a, b, c][..2] == [a, b] && [a, b][..1] == [a] && [a][..0] == [];
    assert Run(f, [a]) == Step(f, a);
    assert Run(f, [a, b]) == Step(Step(f, a), b);
  }

  /** Both writers have begun, and a client has joined. */
  function Begun(): Feed {
    Feed(1, None, map[7 := map[], 8 := map[]], map[], map[0 := Client(0, 0, [], map[])])
  }

  lemma {:induction false} BeginsSo()
    ensures Run(EmptyFeed, [Join(0, 0), Begin(7), Begin(8)]) == Begun()
  {
    RunThree(EmptyFeed, Join(0, 0), Begin(7), Begin(8));
  }

  lemma {:induction false} LaterChangeIsSentFirst(racing: Feed, second: Payload)
    requires racing.open.Keys == {7, 8} && racing.open[8] == map[2 := second] && racing.table == map[] && racing.clients == Begun().clients
    ensures var f := Step(Step(racing, Commit(8)), Poll(0, 100));
            && f.open == racing.open - {8} && f.table == map[2 := second] && 0 in f.clients
            && f.clients[0].received == [2] && f.clients[0].cursor == 2 && f.clients[0].start == 0
  {
    var f := Step(racing, Commit(8));
    assert f.table == map[2 := second];
    assert Above(f.table, 0) == {2};
    AscendingUnique([2], {2});
  }

  /** Two writers that allocate 1 and 2 without the lock and commit in the other order
      make a client skip change 1 for good. */
  lemma {:induction false} WithoutTheLockAChangeIsMissed(first: Payload, second: Payload)
    ensures var begun := Run(EmptyFeed, [Join(0, 0), Begin(7), Begin(8)]);
            && 7 in begun.open && 8 in AllocateUnlocked(begun, 7, first).open
            && var f := Run(AllocateUnlocked(AllocateUnlocked(begun, 7, first), 8, second),
                            [Commit(8), Poll(0, 100), Commit(7)]);
            && 0 in f.clients && 1 in f.table
            && f.clients[0].start < 1 <= f.clients[0].cursor
            && 1 !in f.clients[0].received
  {
    BeginsSo();
    var racing := AllocateUnlocked(AllocateUnlocked(Begun(), 7, first), 8, second);
    RunThree(racing, Commit(8), Poll(0, 100), Commit(7));
    LaterChangeIsSentFirst(racing, second);
    assert 1 in racing.open[7];
  }
}

/** Log feeds: which rows of a query are new, and why a known row is not sent again. */
module LogFeeds {
  import opened Clock
  import opened StateStore
  import opened Text
  import opened Validation

  /** A log row by its timestamp; everything else the fingerprint may use is opaque. */
  datatype Row = Row(at: Instant, content: string)

  /** A query started at `queriedAt` asks for rows from the second in which its window starts to the
      second in which it is asked. */
  predicate Returned(row: Row, queriedAt: Instant, since: nat) {
    (queriedAt - since) / SECOND <= row.at / SECOND <= queriedAt / SECOND
  }

  /** The start of the second of a row. */
  function SecondOf(row: Row): Instant {
    row.at / SECOND * SECOND
  }

  // ----- The time to live against the query window -----

  /** A window that ends before a row recorded in its first second can expire: no answer comes less
      than `delay` after its query, and its rows are recorded only then. */
  predicate Outlived(since: nat, delay: nat) {
    since + SECOND <= FINGERPRINT_TTL + delay + 1
  }

  /** A fingerprint recorded `delay` after the query of its row expires only once the row has left
      every such window. */
  lemma ExpiredIsOutOfWindow(row: Row, since: nat, delay: nat, clock: Instant, queriedAt: Instant)
    requires Outlived(since, delay)
    requires SecondOf(row) + delay + FINGERPRINT_TTL < clock <= queriedAt
    ensures !Returned(row, queriedAt, since)
  {
  }

  /** A row that one query returned and that was recorded with its answer, then pruned, and then
      returned again by a query with the same window. */
  ghost predicate Redelivers(since: nat, delay: nat, row: Row, askedAt: Instant, recordedAt: Instant, prunedAt: Instant,
                             queriedAt: Instant)
  {
    && Returned(row, askedAt, since) && askedAt + delay <= recordedAt
    && Expired(recordedAt, FINGERPRINT_TTL, prunedAt) && prunedAt <= queriedAt
    && Returned(row, queriedAt, since)
  }

  /** The exact windows for which that can happen: those that are not outlived. */
  lemma RedeliveryIsPossibleExactly(since: nat, delay: nat)
    ensures (exists row, askedAt, recordedAt, prunedAt, queriedAt ::
               Redelivers(since, delay, row, askedAt, recordedAt, prunedAt, queriedAt)) <==> !Outlived(since, delay)
  {
    if !Outlived(since, delay) {
      // a row at the start of its second, queried in that instant, recorded with the earliest answer,
      // pruned and queried again as late as the window allows
      var days := since / DAY + 1;
      var at := SECOND * days;
      var query := at + since + SECOND - 1;
      assert at / SECOND == days && (at - since) / SECOND <= days;
      assert (query - since) / SECOND == days;
      assert Redelivers(since, delay, Row(at, ""), at, at + delay, query, query);
    }
  }

  /** Of the windows a feed may be registered with, only the day-long one can redeliver, and it does
      exactly if an answer may come within a second of its query. */
  lemma OnlyTheDayWindowRedelivers(label': string, delay: nat)
    requires ParseSince(label').Some?
    ensures (exists row, askedAt, recordedAt, prunedAt, queriedAt ::
               Redelivers(ParseSince(label').value, delay, row, askedAt, recordedAt, prunedAt, queriedAt)) <==>
            Trim(label') == "24h" && delay + 1 < SECOND
    ensures Outlived(ParseSince(label').value, delay) <==> Trim(label') != "24h" || delay + 1 >= SECOND
  {
    RedeliveryIsPossibleExactly(ParseSince(label').value, delay);
  }

  // ----- Fingerprints that stand for recorded rows -----

  function RowSet(rows: seq<Row>): set<Row> {
    set row | row in rows
  }

  /** The feed either still knows the row's fingerprint, recorded no earlier than `delay` after the
      second of the row, or a fingerprint recorded then would have expired. */
  predicate Covered(fp: string, delay: nat, row: Row, entries: map<string, Instant>, clock: Instant) {
    || (fp in entries && SecondOf(row) + delay <= entries[fp])
    || SecondOf(row) + delay + FINGERPRINT_TTL < clock
  }

  ghost predicate Covers(fp: Row -> string, delay: nat, rows: set<Row>, entries: map<string, Instant>, clock: Instant) {
    forall row | row in rows :: Covered(fp(row), delay, row, entries, clock)
  }

  lemma CoversRemains(fp: Row -> string, delay: nat, rows: set<Row>, before: map<string, Instant>,
                      after: map<string, Instant>,
                      clock: Instant, now: Instant)
    requires clock <= now && Covers(fp, delay, rows, before, clock) && Remains(before, after, now, false)
    ensures Covers(fp, delay, rows, after, now)
  {
    hide SecondOf;
  }

  /** The fingerprints of a list of rows. */
  function Prints(fp: Row -> string, rows: seq<Row>): set<string> {
    set row | row in rows :: fp(row)
  }

  /** The known fingerprints after some rows were marked. */
  function MarkedBy(fp: Row -> string, known: map<string, Instant>, rows: seq<Row>,
                    now: Instant): map<string, Instant> {
    known + map key | key in Prints(fp, rows) :: now
  }

  /** The rows of a query that are new: not known, no fingerprint twice, in their order, up to the limit. */
  function FreshOf(fp: Row -> string, rows: seq<Row>, limit: int, known: map<string, Instant>): seq<Row> {
    if rows == [] then []
    else
      var before, row := FreshOf(fp, rows[..|rows| - 1], limit, known), rows[|rows| - 1];
      if Full(before, limit) || fp(row) in known || fp(row) in Prints(fp, before) then before else before + [row]
  }

  /** The pass ends when it has as many rows as the limit; it always takes the first one. */
  predicate Full(rows: seq<Row>, limit: int) {
    rows != [] && |rows| >= limit
  }

  /** The fingerprints of a feed's first query, all recorded at one time. */
  method Baseline(fp: Row -> string, rows: seq<Row>, now: Instant) returns (fingerprints: map<string, Instant>)
    ensures fingerprints == MarkedBy(fp, map[], rows, now)
  {
    fingerprints := map[];
    for i := 0 to |rows|
      invariant fingerprints == MarkedBy(fp, map[], rows[..i], now)
    {
      hide MarkedBy;
      assert rows[..i + 1] == rows[..i] + [rows[i]];
      OneMoreMark(fp, map[], rows[..i], rows[i], now);
      fingerprints := fingerprints[fp(rows[i]) := now];
    }
    assert rows[..|rows|] == rows;
  }

  lemma BaselineCovers(fp: Row -> string, delay: nat, rows: seq<Row>, now: Instant)
    requires forall row | row in rows :: SecondOf(row) + delay <= now
    ensures Covers(fp, delay, RowSet(rows), MarkedBy(fp, map[], rows, now), now)
    ensures |MarkedBy(fp, map[], rows, now)| <= |rows|
  {
    hide SecondOf;
    MarkedSize(fp, map[], rows, now);
  }

  lemma {:induction false} PrintsAreFew(fp: Row -> string, rows: seq<Row>)
    ensures |Prints(fp, rows)| <= |rows|
  {
    if rows == [] {
      assert Prints(fp, rows) == {};
    } else {
      var before, row := rows[..|rows| - 1], rows[|rows| - 1];
      PrintsAreFew(fp, before);
      assert rows == before + [row];
      assert Prints(fp, rows) == Prints(fp, before) + {fp(row)};
    }
  }

  lemma MarkedSize(fp: Row -> string, known: map<string, Instant>, rows: seq<Row>, now: Instant)
    ensures |MarkedBy(fp, known, rows, now)| <= |known| + |rows|
  {
    PrintsAreFew(fp, rows);
    assert MarkedBy(fp, known, rows, now).Keys == known.Keys + Prints(fp, rows);
    assert |known.Keys + Prints(fp, rows)| <= |known.Keys| + |Prints(fp, rows)|;
    assert |MarkedBy(fp, known, rows, now).Keys| == |MarkedBy(fp, known, rows, now)| && |known.Keys| == |known|;
  }

  /** The pass over the rows of a query: the new ones are collected and marked as known in place. */
  method SelectFresh(fp: Row -> string, rows: seq<Row>, limit: int, known: TimedMap<Instant>, now: Instant)
      returns (fresh': seq<Row>)
    modifies known
    ensures fresh' == FreshOf(fp, rows, limit, old(known.entries))
    ensures known.entries == MarkedBy(fp, old(known.entries), fresh', now)
  {
    hide FreshOf, MarkedBy;
    fresh' := [];
    NothingFresh(fp, rows[..0], limit, known.entries, now);
    for i := 0 to |rows|
      invariant fresh' == FreshOf(fp, rows[..i], limit, old(known.entries)) && !Full(fresh', limit)
      invariant known.entries == MarkedBy(fp, old(known.entries), fresh', now)
    {
      var row := rows[i];
      assert rows[..i + 1] == rows[..i] + [row];
      OneMoreRow(fp, rows[..i], row, limit, old(known.entries), now);
      if fp(row) in known.entries { continue; }
      known.entries := known.entries[fp(row) := now];
      fresh' := fresh' + [row];
      if |fresh'| >= limit {
        FullStaysFull(fp, rows, i + 1, limit, old(known.entries));
        return;
      }
    }
    assert rows[..|rows|] == rows;
  }

  lemma NothingFresh(fp: Row -> string, rows: seq<Row>, limit: int, known: map<string, Instant>, now: Instant)
    requires rows == []
    ensures FreshOf(fp, rows, limit, known) == [] && MarkedBy(fp, known, [], now) == known
  {
  }

  lemma OneMoreRow(fp: Row -> string, rows: seq<Row>, row: Row, limit: int, known: map<string, Instant>, now: Instant)
    requires !Full(FreshOf(fp, rows, limit, known), limit)
    ensures var before := FreshOf(fp, rows, limit, known);
            var marked := MarkedBy(fp, known, before, now);
            && FreshOf(fp, rows + [row], limit, known) == (if fp(row) in marked then before else before + [row])
            && MarkedBy(fp, known, before + [row], now) == marked[fp(row) := now]
  {
    assert (rows + [row])[..|rows|] == rows;
    OneMoreMark(fp, known, FreshOf(fp, rows, limit, known), row, now);
    hide MarkedBy, Prints;
  }

  lemma OneMoreMark(fp: Row -> string, known: map<string, Instant>, rows: seq<Row>, row: Row, now: Instant)
    ensures MarkedBy(fp, known, rows + [row], now) == MarkedBy(fp, known, rows, now)[fp(row) := now]
    ensures fp(row) in MarkedBy(fp, known, rows, now) <==> fp(row) in known || fp(row) in Prints(fp, rows)
  {
    assert Prints(fp, rows + [row]) == Prints(fp, rows) + {fp(row)};
    hide Prints;
  }

  lemma {:induction false} FullStaysFull(fp: Row -> string, rows: seq<Row>, n: nat, limit: int,
                                         known: map<string, Instant>)
    requires n <= |rows| && Full(FreshOf(fp, rows[..n], limit, known), limit)
    ensures FreshOf(fp, rows, limit, known) == FreshOf(fp, rows[..n], limit, known)
  {
    if n == |rows| {
      assert rows[..n] == rows;
    } else {
      assert rows[..|rows| - 1][..n] == rows[..n];
      FullStaysFull(fp, rows[..|rows| - 1], n, limit, known);
    }
  }

  /** What that means: fresh rows are unknown rows of the query with different fingerprints, as many as
      the limit admits; if there are fewer, no row of the query is left unknown. */
  lemma {:induction false} FreshIsNew(fp: Row -> string, rows: seq<Row>, limit: int, known: map<string, Instant>)
    ensures var fresh' := FreshOf(fp, rows, limit, known);
            && (forall row | row in fresh' :: row in rows && fp(row) !in known)
            && (forall i, j | 0 <= i < j < |fresh'| :: fp(fresh'[i]) != fp(fresh'[j]))
            && (limit > 0 ==> |fresh'| <= limit)
            && (!Full(fresh', limit) ==> forall row | row in rows :: fp(row) in known || fp(row) in Prints(fp, fresh'))
  {
    if rows != [] {
      var before, row := rows[..|rows| - 1], rows[|rows| - 1];
      FreshIsNew(fp, before, limit, known);
      assert row in rows && forall r | r in before :: r in rows;
      assert forall r | r in rows :: r in before || r == row;
      var chosen := FreshOf(fp, before, limit, known);
      assert fp(row) !in Prints(fp, chosen) ==> forall i | 0 <= i < |chosen| :: fp(chosen[i]) != fp(row) by {
        assert forall i | 0 <= i < |chosen| :: chosen[i] in chosen;
      }
      assert forall r | r in chosen :: r in chosen + [row];
    }
  }

  /** Marking the fresh rows of a query keeps every recorded row covered, and covers the fresh ones. */
  lemma MarkingCovers(fp: Row -> string, delay: nat, known: map<string, Instant>, rows: seq<Row>, now: Instant,
                      recorded: set<Row>, clock: Instant)
    requires Covers(fp, delay, recorded, known, clock)
    requires forall row | row in rows :: SecondOf(row) + delay <= now && fp(row) !in known
    ensures Covers(fp, delay, recorded + RowSet(rows), MarkedBy(fp, known, rows, now), clock)
  {
    hide SecondOf;
    forall row | row in recorded + RowSet(rows) ensures Covered(fp(row), delay, row, MarkedBy(fp, known, rows, now),
                                                                clock) {
      if row in rows { assert fp(row) in Prints(fp, rows); }
    }
  }

  /** An answer that comes `delay` after its query comes that much after the second of each row. */
  lemma AnsweredLater(row: Row, queriedAt: Instant, since: nat, delay: nat, receivedAt: Instant)
    requires Returned(row, queriedAt, since) && queriedAt + delay <= receivedAt
    ensures SecondOf(row) + delay <= receivedAt
  {
  }

  /** No re-delivery: with an outlived window, no fresh row was recorded before. */
  lemma FreshIsNotRecorded(fp: Row -> string, delay: nat, rows: seq<Row>, limit: int, known: map<string, Instant>,
                           recorded: set<Row>, clock: Instant, since: nat, queriedAt: Instant)
    requires Covers(fp, delay, recorded, known, clock) && clock <= queriedAt
    requires forall row | row in rows :: Returned(row, queriedAt, since)
    requires Outlived(since, delay)
    ensures RowSet(FreshOf(fp, rows, limit, known)) !! recorded
  {
    FreshIsNew(fp, rows, limit, known);
    hide SecondOf, Returned, Outlived, FreshOf;
    forall row | row in FreshOf(fp, rows, limit, known) && row in recorded ensures false {
      assert Covered(fp(row), delay, row, known, clock);
      ExpiredIsOutOfWindow(row, since, delay, clock, queriedAt);
    }
  }

  /** Failed send loses nothing: a row that was fresh and is returned again is fresh again or still
      waits behind a full message, as long as its fingerprint was not recorded. */
  lemma UnsentStaysEligible(fp: Row -> string, rows: seq<Row>, limit: int, known: map<string, Instant>,
                            later: map<string, Instant>, row: Row)
    requires row in rows && fp(row) !in known && later.Keys <= known.Keys
    ensures Full(FreshOf(fp, rows, limit, later), limit) || fp(row) in Prints(fp, FreshOf(fp, rows, limit, later))
  {
    FreshIsNew(fp, rows, limit, later);
  }
}

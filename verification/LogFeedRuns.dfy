/** Rounds of log feed refreshes: what the visits of any number of rounds may do to the stored feeds,
    their fingerprints, the recorded rows and the cap, that no message of a run repeats a row, and
    that no row is lost. */
module LogFeedRuns {
  import opened Clock
  import opened LogFeeds
  import opened StateStore
  import opened Validation
  import opened Wrappers

  type Entries = map<string, Instant>

  type Recorded = map<string, set<Row>>

  /** How rows are told apart, for each service and mode, and the least time from a query to its
      answer, which is the interval at which its result is polled. */
  datatype Config = Config(prints: (string, string) -> (Row -> string), delay: nat)
  {
    function For(feed: LogFeed): Row -> string {
      prints(feed.service, feed.mode)
    }
  }

  function WithFeed(data: Data, key: string, feed: LogFeed): Data {
    data.(logFeeds := data.logFeeds[key := feed])
  }

  /** One answer of the outside world to a refresh: the query's rows or its failure, the times the
      clock was read, and whether the message was delivered. */
  datatype Answer = Answer(rows: Option<seq<Row>>, failure: string, queriedAt: Instant, receivedAt: Instant,
                           delivered: bool, first: Instant, second: Instant)
  {
    predicate After(clock: Instant) {
      clock <= queriedAt <= receivedAt <= first <= second
    }

    /** What a query that succeeds promises about its rows and about the time it takes. */
    predicate Answers(label': string, delay: nat) {
      rows.Some? ==>
        && ParseSince(label').Some?
        && queriedAt + delay <= receivedAt
        && forall row | row in rows.value :: Returned(row, queriedAt, ParseSince(label').value)
    }
  }

  /** The windows that cannot redeliver. */
  predicate SafeWindow(label': string, delay: nat) {
    ParseSince(label').Some? && Outlived(ParseSince(label').value, delay)
  }

  /** The same registration, whatever its fingerprints and status. */
  predicate SameRegistration(a: LogFeed, b: LogFeed) {
    a.service == b.service && a.mode == b.mode && a.since == b.since && a.limit == b.limit
  }

  /** One refresh: the rows put into its message, the number of fingerprints known with them, and
      whether they were delivered; a refresh without new rows sends no message and succeeds. */
  datatype Visit = Visit(key: string, rows: seq<Row>, known: nat, delivered: bool)

  function VisitOf(fp: Row -> string, key: string, limit: int, known: Entries, a: Answer): (v: Visit)
    ensures v.key == key
  {
    var rows := if a.rows.None? then [] else FreshOf(fp, a.rows.value, limit, known);
    Visit(key, rows, |MarkedBy(fp, known, rows, a.receivedAt)|, a.rows.Some? && (rows == [] || a.delivered))
  }

  /** With room for one more message below the cap, a visit stays below it. */
  lemma VisitKnowsFew(fp: Row -> string, key: string, limit: int, known: Entries, a: Answer)
    requires limit > 0
    ensures VisitOf(fp, key, limit, known, a).known <= |known| + limit
  {
    var v := VisitOf(fp, key, limit, known, a);
    if a.rows.Some? { FreshIsNew(fp, a.rows.value, limit, known); }
    MarkedSize(fp, known, v.rows, a.receivedAt);
  }

  /** The stored feed after a refresh of a copy of it. */
  function Refreshed(stored: LogFeed, copy: LogFeed, a: Answer, delivered: bool): LogFeed {
    if a.rows.None? then stored.(status := a.failure, lastCheckedAt := a.receivedAt)
    else if delivered then stored.(fingerprints := copy.fingerprints, lastCheckedAt := a.receivedAt, status := "ACTIVE")
    else stored
  }

  /** The fingerprints of all feeds with those of a refresh, before any pruning: only a delivered
      message adds any, to the ones that the copy had. */
  function Marked(known: map<string, Entries>, key: string, fp: Row -> string, copy: Entries, v: Visit, now: Instant):
    map<string, Entries>
  {
    if v.delivered then known[key := MarkedBy(fp, copy, v.rows, now)] else known
  }

  function RowsOf(recorded: Recorded, key: string): set<Row> {
    if key in recorded then recorded[key] else {}
  }

  /** The rows recorded for the key grow by these, those of every other key stay. */
  ghost predicate Grown(before: Recorded, after: Recorded, key: string, rows: set<Row>) {
    forall k :: RowsOf(after, k) == RowsOf(before, k) + if k == key then rows else {}
  }

  lemma GrowsBy(recorded: Recorded, key: string, rows: set<Row>)
    ensures Grown(recorded, recorded[key := RowsOf(recorded, key) + rows], key, rows)
  {
  }

  lemma OthersKept(before: Recorded, after: Recorded, key: string, rows: set<Row>)
    requires Grown(before, after, key, rows)
    ensures forall k | k != key :: RowsOf(after, k) == RowsOf(before, k)
  {
  }

  lemma NothingGrown(recorded: Recorded, key: string)
    ensures Grown(recorded, recorded, key, {})
  {
  }

  lemma NothingMoreGrown(recorded: Recorded, key: string)
    ensures Grown(recorded, recorded[key := RowsOf(recorded, key)], key, {})
  {
  }

  // ----- Fingerprints that age -----

  /** What prunings within a span of time leave of a map, if there were any. */
  ghost predicate Ages(before: Entries, after: Entries, from: Instant, until: Instant, capped: bool) {
    before == after || exists t :: from <= t <= until && Remains(before, after, t, capped)
  }

  ghost predicate Aging(before: map<string, Entries>, after: map<string, Entries>, from: Instant, until: Instant,
                        capped: bool)
  {
    && after.Keys == before.Keys
    && forall key | key in before :: Ages(before[key], after[key], from, until, capped)
  }

  lemma AgesTwice(a: Entries, b: Entries, c: Entries, from: Instant, middle: Instant, until: Instant,
                  capped: bool, capped': bool)
    requires from <= middle <= until && (capped ==> capped')
    requires Ages(a, b, from, middle, capped) && Ages(b, c, middle, until, capped')
    ensures Ages(a, c, from, until, capped')
  {
    if a != b {
      var first :| from <= first <= middle && Remains(a, b, first, capped);
      if b == c {
        MoreCapped(a, b, first, capped, capped');
      } else {
        var second :| middle <= second <= until && Remains(b, c, second, capped');
        RemainsTwice(a, b, c, first, second, capped, capped');
      }
    }
  }

  lemma MoreCapped(a: Entries, b: Entries, now: Instant, capped: bool, capped': bool)
    requires Remains(a, b, now, capped) && (capped ==> capped')
    ensures Remains(a, b, now, capped')
  {
  }

  lemma AgesKnowNothingNew(before: Entries, after: Entries, from: Instant, until: Instant, capped: bool)
    requires Ages(before, after, from, until, capped)
    ensures after.Keys <= before.Keys
  {
  }

  /** Fingerprints that aged, were marked by a refresh of a copy, and aged again. */
  lemma AgingGoesOn(a: map<string, Entries>, b: map<string, Entries>, c: map<string, Entries>, key: string,
                    fp: Row -> string, copy: Entries, v: Visit, now: Instant,
                    from: Instant, middle: Instant, until: Instant, capped: bool, capped': bool)
    requires from <= middle <= until && (capped ==> capped') && key in a
    requires Aging(a, b, from, middle, capped) && Aging(Marked(b, key, fp, copy, v, now), c, middle, until, capped')
    ensures Aging(Marked(a, key, fp, copy, v, now), c, from, until, capped')
  {
    hide MarkedBy, Ages;
    var a', b' := Marked(a, key, fp, copy, v, now), Marked(b, key, fp, copy, v, now);
    forall k | k in a' ensures Ages(a'[k], c[k], from, until, capped') {
      assert Ages(b'[k], c[k], middle, until, capped');
      if k == key && v.delivered {
        AgesWider(a'[k], c[k], middle, until, from, until, capped');
      } else {
        AgesTwice(a[k], b[k], c[k], from, middle, until, capped, capped');
      }
    }
  }

  lemma AgesWider(a: Entries, b: Entries, from: Instant, until: Instant, from': Instant, until': Instant, capped: bool)
    requires Ages(a, b, from, until, capped) && from' <= from && until <= until'
    ensures Ages(a, b, from', until', capped)
  {
  }

  lemma AgingWider(a: map<string, Entries>, b: map<string, Entries>, from: Instant, until: Instant,
                   from': Instant, until': Instant, capped: bool)
    requires Aging(a, b, from, until, capped) && from' <= from && until <= until'
    ensures Aging(a, b, from', until', capped)
  {
    hide Ages;
    forall key | key in a ensures Ages(a[key], b[key], from', until', capped) {
      AgesWider(a[key], b[key], from, until, from', until', capped);
    }
  }

  lemma NoTimeToAge(known: map<string, Entries>, now: Instant, capped: bool)
    ensures Aging(known, known, now, now, capped)
  {
    hide Remains;
  }

  // ----- One round -----

  predicate Due(feed: LogFeed, now: Instant) {
    && !feed.disabled && OpsConnected(feed.service)
    && (|| feed.lastCheckedAt == 0
        || now - feed.lastCheckedAt >= (if feed.intervalSec <= 0 then 300 else feed.intervalSec) * SECOND)
  }

  /** What the outside world does during one round: the i-th query, whichever feed it is for, is
      asked, answered and stored between `time(i)` and `time(i + 1)`. */
  datatype Round = Round(maxQueries: int, time: nat -> Instant, answer: (nat, string) -> Answer)
  {
    function Budget(): nat {
      if maxQueries <= 0 then 6 else maxQueries
    }

    ghost predicate Ordered() {
      forall i: nat, key | i < Budget() :: answer(i, key).After(time(i)) && answer(i, key).second <= time(i + 1)
    }

    ghost predicate AnswersAll(feeds: map<string, LogFeed>, delay: nat) {
      forall i: nat, key | i < Budget() && key in feeds :: answer(i, key).Answers(feeds[key].since, delay)
    }

    lemma {:induction false} TimePasses(i: nat, j: nat)
      requires Ordered() && i <= j <= Budget()
      ensures time(i) <= time(j)
      decreases j - i
    {
      if i < j {
        assert answer(i, "").After(time(i));
        TimePasses(i + 1, j);
      }
    }
  }

  function VisitKeys(visits: seq<Visit>): set<string> {
    set v | v in visits :: v.key
  }

  lemma OneMoreKey(visits: seq<Visit>, v: Visit)
    ensures VisitKeys(visits + [v]) == VisitKeys(visits) + {v.key}
    ensures forall i | 0 <= i < |visits| :: visits[i].key in VisitKeys(visits)
  {
  }

  /** The rows delivered for a feed. */
  function DeliveredRows(visits: seq<Visit>, key: string): set<Row> {
    set v, row | v in visits && v.key == key && v.delivered && row in v.rows :: row
  }

  lemma DeliveredTogether(before: seq<Visit>, after: seq<Visit>, key: string)
    ensures DeliveredRows(before + after, key) == DeliveredRows(before, key) + DeliveredRows(after, key)
    ensures key !in VisitKeys(before) ==> DeliveredRows(before, key) == {}
  {
  }

  lemma DeliveredByOne(v: Visit, key: string)
    ensures DeliveredRows([v], key) == if v.key == key && v.delivered then RowSet(v.rows) else {}
  {
    assert v in [v];
  }

  /** Each visit is to another feed that was due, and does what the answer to it demands. */
  ghost predicate RoundOf(config: Config, r: Round, feeds: map<string, LogFeed>, copies: map<string, Entries>,
                          visits: seq<Visit>)
  {
    && |visits| <= r.Budget()
    && (forall i, j | 0 <= i < j < |visits| :: visits[i].key != visits[j].key)
    && forall i | 0 <= i < |visits| ::
         var key := visits[i].key;
         && key in feeds && key in copies && Due(feeds[key], r.time(0))
         && visits[i] == VisitOf(config.For(feeds[key]), key, feeds[key].limit, copies[key], r.answer(i, key))
  }

  /** Due feeds are passed over only when the budget is used up. */
  ghost predicate NonePassedOver(r: Round, feeds: map<string, LogFeed>, visits: seq<Visit>, left: set<string>) {
    |visits| < r.Budget() ==>
      forall key | key in feeds && key !in left && Due(feeds[key], r.time(0)) :: key in VisitKeys(visits)
  }

  /** What the visits leave of the stored feeds, whatever their maps. */
  ghost predicate StoredAfter(r: Round, before: map<string, LogFeed>, after: map<string, LogFeed>, visits: seq<Visit>) {
    && after.Keys == before.Keys
    && (forall key | key in before && key !in VisitKeys(visits) :: after[key] == before[key])
    && (forall i | 0 <= i < |visits| :: StoredVisit(r.answer(i, visits[i].key), visits[i], before, after))
  }

  predicate StoredVisit(a: Answer, v: Visit, before: map<string, LogFeed>, after: map<string, LogFeed>) {
    v.key in before && v.key in after ==>
      var feed := before[v.key];
      Refreshed(feed, feed, a, v.delivered) == after[v.key].(fingerprints := feed.fingerprints)
  }

  /** The fingerprints after the visits, before any pruning. */
  function MarkedAll(config: Config, r: Round, feeds: map<string, LogFeed>, copies: map<string, Entries>,
                     visits: seq<Visit>): map<string, Entries>
  {
    if visits == [] then copies
    else
      var n := |visits| - 1;
      var v, before := visits[n], MarkedAll(config, r, feeds, copies, visits[..n]);
      if v.key !in feeds || v.key !in copies then before
      else Marked(before, v.key, config.For(feeds[v.key]), copies[v.key], v, r.answer(n, v.key).receivedAt)
  }

  ghost predicate SomeOverCapVisit(visits: seq<Visit>) {
    exists v :: v in visits && v.known > FINGERPRINT_CAP
  }

  /** No message repeats a row recorded before the visits or delivered earlier among them, for feeds
      whose window cannot redeliver. */
  ghost predicate NoRepeats(delay: nat, feeds: map<string, LogFeed>, recorded: Recorded, visits: seq<Visit>) {
    forall i | 0 <= i < |visits| && visits[i].key in feeds && SafeWindow(feeds[visits[i].key].since, delay) ::
      RowSet(visits[i].rows) !! RowsOf(recorded, visits[i].key) + DeliveredRows(visits[..i], visits[i].key)
  }

  ghost predicate GrownBy(before: Recorded, after: Recorded, visits: seq<Visit>) {
    forall key :: RowsOf(after, key) == RowsOf(before, key) + DeliveredRows(visits, key)
  }

  /** The state of the service by value: `known` are the contents of the feeds' maps. */
  datatype Books = Books(data: Data, known: map<string, Entries>, recorded: Recorded, capped: bool)

  /** What a round has done so far: its visits to copies of the stored feeds, the feeds still to look
      at, the stored feeds and fingerprints, the recorded rows, why a cap may have taken effect, and
      that no message repeats a row. */
  ghost predicate RoundSoFar(config: Config, r: Round, before: Books, after: Books, copies: map<string, Entries>,
                             visits: seq<Visit>, left: set<string>)
  {
    var feeds := before.data.logFeeds;
    && Aging(before.known, copies, r.time(0), r.time(0), before.capped)
    && RoundOf(config, r, feeds, copies, visits)
    && left !! VisitKeys(visits) && NonePassedOver(r, feeds, visits, left)
    && after.data == before.data.(logFeeds := after.data.logFeeds)
    && StoredAfter(r, feeds, after.data.logFeeds, visits)
    && Aging(MarkedAll(config, r, feeds, copies, visits), after.known, r.time(0), r.time(|visits|), after.capped)
    && GrownBy(before.recorded, after.recorded, visits)
    && (before.capped ==> after.capped) && (after.capped ==> before.capped || SomeOverCapVisit(visits))
    && (!after.capped ==> NoRepeats(config.delay, feeds, before.recorded, visits))
  }

  /** A round starts with copies, whose pruning the stored maps share. */
  lemma NoVisits(config: Config, r: Round, before: Books, copies: map<string, Entries>)
    requires Aging(before.known, copies, r.time(0), r.time(0), before.capped)
    ensures RoundSoFar(config, r, before, before.(known := copies), copies, [], before.data.logFeeds.Keys)
  {
    NoTimeToAge(copies, r.time(0), before.capped);
    hide Aging;
  }

  lemma PassedOver(config: Config, r: Round, before: Books, after: Books, copies: map<string, Entries>,
                   visits: seq<Visit>, left: set<string>, key: string, feeds: map<string, LogFeed>)
    requires RoundSoFar(config, r, before, after, copies, visits, left + {key})
    requires CopiesOf(before.data.logFeeds, feeds) && key in feeds
    requires !Due(feeds[key], r.time(0)) || |visits| >= r.Budget()
    ensures RoundSoFar(config, r, before, after, copies, visits, left)
  {
    hide RoundOf, StoredAfter, GrownBy, NoRepeats, SomeOverCapVisit, VisitKeys, Aging, MarkedAll;
    CopyIsAlike(before.data.logFeeds, feeds, key, r.time(0));
    hide Due, CopiesOf;
  }

  /** What one visit does to the state. */
  ghost predicate Visited(config: Config, before: Books, after: Books, copy: LogFeed, entries: Entries, a: Answer,
                          v: Visit) {
    && v == VisitOf(config.For(copy), v.key, copy.limit, entries, a)
    && v.key in before.data.logFeeds
    && after.data == WithFeed(before.data, v.key, Refreshed(before.data.logFeeds[v.key], copy, a, v.delivered))
    && Aging(Marked(before.known, v.key, config.For(copy), entries, v, a.receivedAt), after.known, a.second, a.second,
             after.capped)
    && Grown(before.recorded, after.recorded, v.key, if v.delivered then RowSet(v.rows) else {})
    && (before.capped ==> after.capped) && (after.capped ==> before.capped || v.known > FINGERPRINT_CAP)
    && (!before.capped && SafeWindow(copy.since, config.delay) ==> RowSet(v.rows) !! RowsOf(before.recorded, v.key))
  }

  /** A failed query changes the status of the feed. */
  lemma FailedVisit(config: Config, before: Books, after: Books, key: string, copy: LogFeed, entries: Entries,
                    a: Answer)
    requires a.rows.None? && key in before.data.logFeeds
    requires after.data == WithFeed(before.data, key, before.data.logFeeds[key].(
                                      status := a.failure, lastCheckedAt := a.receivedAt))
    requires Aging(before.known, after.known, a.second, a.second, after.capped)
    requires Grown(before.recorded, after.recorded, key, {}) && before.capped == after.capped
    ensures Visited(config, before, after, copy, entries, a, Visit(key, [], |entries|, false))
  {
    NothingMarked(config.For(copy), entries, a.receivedAt);
    hide MarkedBy, Aging, Grown, WithFeed, SafeWindow;
  }

  lemma NothingMarked(fp: Row -> string, known: Entries, now: Instant)
    ensures MarkedBy(fp, known, [], now) == known && RowSet([]) == {}
  {
  }

  /** A failed send changes nothing. */
  lemma UnsentVisit(config: Config, books: Books, key: string, copy: LogFeed, entries: Entries, a: Answer,
                    rows: seq<Row>)
    requires a.rows.Some? && !a.delivered && rows != [] && key in books.data.logFeeds
    requires rows == FreshOf(config.For(copy), a.rows.value, copy.limit, entries)
    requires !books.capped && SafeWindow(copy.since, config.delay) ==> RowSet(rows) !! RowsOf(books.recorded, key)
    ensures Visited(config, books, books, copy, entries, a,
                    Visit(key, rows, |MarkedBy(config.For(copy), entries, rows, a.receivedAt)|, false))
  {
    NoTimeToAge(books.known, a.second, books.capped);
    NothingGrown(books.recorded, key);
    hide MarkedBy, Aging, Grown, SafeWindow, FreshOf;
    assert WithFeed(books.data, key, books.data.logFeeds[key]) == books.data;
  }

  /** A delivered message, or none, stores the copy's marked map. */
  lemma DeliveredVisit(config: Config, before: Books, after: Books, key: string, copy: LogFeed, entries: Entries,
                       a: Answer,
                       rows: seq<Row>)
    requires a.rows.Some? && (a.delivered || rows == []) && key in before.data.logFeeds
    requires rows == FreshOf(config.For(copy), a.rows.value, copy.limit, entries)
    requires after.data == WithFeed(before.data, key, before.data.logFeeds[key].(
                                      fingerprints := copy.fingerprints, lastCheckedAt := a.receivedAt,
                                          status := "ACTIVE"))
    requires var marked := MarkedBy(config.For(copy), entries, rows, a.receivedAt);
             && Aging(before.known[key := marked], after.known, a.second, a.second, after.capped)
             && (after.capped ==> before.capped || |marked| > FINGERPRINT_CAP)
    requires Grown(before.recorded, after.recorded, key, RowSet(rows)) && (before.capped ==> after.capped)
    requires !before.capped && SafeWindow(copy.since, config.delay) ==> RowSet(rows) !! RowsOf(before.recorded, key)
    ensures Visited(config, before, after, copy, entries, a,
                    Visit(key, rows, |MarkedBy(config.For(copy), entries, rows, a.receivedAt)|, true))
  {
    hide MarkedBy, Aging, Grown, WithFeed, SafeWindow, FreshOf;
  }

  lemma RoundGoesOn(config: Config, r: Round, before: Books, between: Books, after: Books, copies: map<string, Entries>,
                    visits: seq<Visit>, v: Visit, left: set<string>, copy: LogFeed)
    requires RoundSoFar(config, r, before, between, copies, visits, left + {v.key}) && v.key !in left
    requires |visits| < r.Budget() && r.Ordered() && v.key in before.data.logFeeds && v.key in copies
    requires Due(before.data.logFeeds[v.key], r.time(0)) && SameRegistration(before.data.logFeeds[v.key], copy)
    requires Visited(config, between, after, copy, copies[v.key], r.answer(|visits|, v.key), v)
    ensures RoundSoFar(config, r, before, after, copies, visits + [v], left)
  {
    hide RoundOf, NonePassedOver, StoredAfter, GrownBy, NoRepeats, SomeOverCapVisit, VisitKeys, Due, VisitOf,
        Refreshed, Grown,
      RowSet, SafeWindow, Aging, MarkedAll, Marked, Round.Ordered;
    var feeds := before.data.logFeeds;
    OneMoreKey(visits, v);
    OneMoreVisit(config, r, feeds, copies, visits, v);
    OneLeftVisited(r, feeds, visits, left + {v.key}, v);
    assert left + {v.key} - {v.key} == left;
    OneMoreStored(r, feeds, between.data.logFeeds, visits, v, copy);
    OneMoreMarked(config, r, before, between, after, copies, visits, v);
    OneMoreGrown(before.recorded, between.recorded, after.recorded, visits, v);
    OneMoreOverCap(visits, v);
    if !after.capped {
      OneMoreNew(config.delay, feeds, before.recorded, between.recorded, visits, v);
    }
  }

  lemma OneMoreOverCap(visits: seq<Visit>, v: Visit)
    ensures SomeOverCapVisit(visits) || v.known > FINGERPRINT_CAP ==> SomeOverCapVisit(visits + [v])
  {
    assert v in visits + [v] && forall w | w in visits :: w in visits + [v];
  }

  lemma OneMoreVisit(config: Config, r: Round, feeds: map<string, LogFeed>, copies: map<string, Entries>,
                     visits: seq<Visit>, v: Visit)
    requires RoundOf(config, r, feeds, copies, visits) && |visits| < r.Budget() && v.key !in VisitKeys(visits)
    requires v.key in feeds && v.key in copies && Due(feeds[v.key], r.time(0))
    requires v == VisitOf(config.For(feeds[v.key]), v.key, feeds[v.key].limit, copies[v.key], r.answer(|visits|, v.key))
    ensures RoundOf(config, r, feeds, copies, visits + [v])
  {
    hide Due, VisitOf, VisitKeys;
    OneMoreKey(visits, v);
  }

  lemma OneLeftVisited(r: Round, feeds: map<string, LogFeed>, visits: seq<Visit>, left: set<string>, v: Visit)
    requires NonePassedOver(r, feeds, visits, left) && v.key in left
    ensures NonePassedOver(r, feeds, visits + [v], left - {v.key})
  {
    OneMoreKey(visits, v);
  }

  lemma OneMoreStored(r: Round, before: map<string, LogFeed>, after: map<string, LogFeed>, visits: seq<Visit>, v: Visit,
                      copy: LogFeed)
    requires StoredAfter(r, before, after, visits) && v.key in before && v.key !in VisitKeys(visits)
    ensures StoredAfter(r, before, after[v.key := Refreshed(after[v.key], copy, r.answer(|visits|, v.key),
                                                            v.delivered)],
                        visits + [v])
  {
    hide Refreshed, StoredVisit, VisitKeys;
    var after' := after[v.key := Refreshed(after[v.key], copy, r.answer(|visits|, v.key), v.delivered)];
    OneMoreKey(visits, v);
    forall i | 0 <= i < |visits| ensures StoredVisit(r.answer(i, visits[i].key), visits[i], before, after') {
      OtherStored(r.answer(i, visits[i].key), visits[i], before, after, after');
    }
    JustStored(r.answer(|visits|, v.key), v, before, after', copy);
  }

  lemma OtherStored(a: Answer, v: Visit, before: map<string, LogFeed>, after: map<string, LogFeed>,
                    after': map<string, LogFeed>)
    requires StoredVisit(a, v, before, after) && (v.key in after' ==> v.key in after && after'[v.key] == after[v.key])
    ensures StoredVisit(a, v, before, after')
  {
    hide Refreshed;
  }

  lemma JustStored(a: Answer, v: Visit, before: map<string, LogFeed>, after: map<string, LogFeed>, copy: LogFeed)
    requires v.key in before && v.key in after && after[v.key] == Refreshed(before[v.key], copy, a, v.delivered)
    ensures StoredVisit(a, v, before, after)
  {
  }

  lemma OneMoreMarked(config: Config, r: Round, before: Books, between: Books, after: Books,
                      copies: map<string, Entries>,
                      visits: seq<Visit>, v: Visit)
    requires r.Ordered() && |visits| < r.Budget() && v.key in before.data.logFeeds && v.key in copies
    requires between.capped ==> after.capped
    requires Aging(MarkedAll(config, r, before.data.logFeeds, copies, visits), between.known, r.time(0),
                   r.time(|visits|),
                   between.capped)
    requires var a := r.answer(|visits|, v.key);
             Aging(Marked(between.known, v.key, config.For(before.data.logFeeds[v.key]), copies[v.key], v,
                          a.receivedAt),
                   after.known, a.second, a.second, after.capped)
    ensures Aging(MarkedAll(config, r, before.data.logFeeds, copies, visits + [v]), after.known, r.time(0),
                  r.time(|visits| + 1), after.capped)
  {
    hide Aging, Marked;
    var feeds, a, n := before.data.logFeeds, r.answer(|visits|, v.key), |visits|;
    var marked := MarkedAll(config, r, feeds, copies, visits);
    r.TimePasses(0, n);
    assert a.After(r.time(n)) && a.second <= r.time(n + 1);
    AgingWider(Marked(between.known, v.key, config.For(feeds[v.key]), copies[v.key], v, a.receivedAt), after.known,
               a.second, a.second, r.time(n), r.time(n + 1), after.capped);
    assert (visits + [v])[..n] == visits;
    MarkedKeys(config, r, feeds, copies, visits);
    AgingGoesOn(marked, between.known, after.known, v.key, config.For(feeds[v.key]), copies[v.key], v, a.receivedAt,
                r.time(0), r.time(n), r.time(n + 1), between.capped, after.capped);
  }

  lemma {:induction false} MarkedKeys(config: Config, r: Round, feeds: map<string, LogFeed>,
                                      copies: map<string, Entries>,
                                      visits: seq<Visit>)
    ensures MarkedAll(config, r, feeds, copies, visits).Keys == copies.Keys
  {
    hide MarkedBy;
    if visits != [] {
      MarkedKeys(config, r, feeds, copies, visits[..|visits| - 1]);
    }
  }

  lemma OneMoreGrown(recorded: Recorded, between: Recorded, after: Recorded, visits: seq<Visit>, v: Visit)
    requires GrownBy(recorded, between, visits)
    requires Grown(between, after, v.key, if v.delivered then RowSet(v.rows) else {})
    ensures GrownBy(recorded, after, visits + [v])
  {
    hide DeliveredRows, RowSet;
    forall key ensures RowsOf(after, key) == RowsOf(recorded, key) + DeliveredRows(visits + [v], key) {
      DeliveredTogether(visits, [v], key);
      DeliveredByOne(v, key);
    }
  }

  /** Rows that are new to what is recorded are new to what was recorded and delivered before. */
  lemma OneMoreNew(delay: nat, feeds: map<string, LogFeed>, recorded: Recorded, between: Recorded, visits: seq<Visit>,
                   v: Visit)
    requires NoRepeats(delay, feeds, recorded, visits) && GrownBy(recorded, between, visits)
    requires v.key in feeds && SafeWindow(feeds[v.key].since, delay) ==> RowSet(v.rows) !! RowsOf(between, v.key)
    ensures NoRepeats(delay, feeds, recorded, visits + [v])
  {
    hide SafeWindow;
    forall i | 0 <= i <= |visits| ensures (visits + [v])[..i] == visits[..i] {
    }
    assert visits[..|visits|] == visits;
  }

  /** Copies of stored feeds, whatever their maps. */
  predicate CopiesOf(feeds: map<string, LogFeed>, copies: map<string, LogFeed>) {
    && copies.Keys == feeds.Keys
    && forall key | key in copies :: copies[key] == feeds[key].(fingerprints := copies[key].fingerprints)
  }

  lemma CopyIsAlike(feeds: map<string, LogFeed>, copies: map<string, LogFeed>, key: string, now: Instant)
    requires CopiesOf(feeds, copies) && key in copies
    ensures Due(copies[key], now) <==> Due(feeds[key], now)
    ensures key in feeds && SameRegistration(feeds[key], copies[key])
  {
  }

  /** A refresh changes no registration, and stores no map but the copy's. */
  lemma RefreshKeepsTheRest(data: Data, key: string, copy: LogFeed, a: Answer, delivered: bool)
    requires key in data.logFeeds
    ensures var after := WithFeed(data, key, Refreshed(data.logFeeds[key], copy, a, delivered));
            && TimeMaps(after) <= TimeMaps(data) + {copy.fingerprints}
            && after.logFeeds.Keys == data.logFeeds.Keys
            && forall k | k in after.logFeeds :: SameRegistration(data.logFeeds[k], after.logFeeds[k])
  {
  }

  ghost predicate SameRegistrations(before: map<string, LogFeed>, after: map<string, LogFeed>) {
    after.Keys == before.Keys && forall key | key in before :: SameRegistration(before[key], after[key])
  }

  lemma {:induction false} RoundKeepsRegistrations(r: Round, before: map<string, LogFeed>, after: map<string, LogFeed>,
                                                   visits: seq<Visit>)
    requires StoredAfter(r, before, after, visits)
    ensures SameRegistrations(before, after)
  {
    forall key | key in before ensures SameRegistration(before[key], after[key]) {
      if key in VisitKeys(visits) {
        var v :| v in visits && v.key == key;
        var i :| 0 <= i < |visits| && visits[i] == v;
        assert StoredVisit(r.answer(i, key), v, before, after);
      }
    }
  }

  // ----- What becomes known -----

  function PrintSet(fp: Row -> string, rows: set<Row>): set<string> {
    set row | row in rows :: fp(row)
  }

  /** Nothing becomes known but the fingerprints of rows that were delivered. */
  ghost predicate OnlyDeliveredKnown(config: Config, feeds: map<string, LogFeed>, before: map<string, Entries>,
                                     after: map<string, Entries>, visits: seq<Visit>)
  {
    forall key | key in after && key in feeds ::
      && key in before
      && after[key].Keys <= before[key].Keys + PrintSet(config.For(feeds[key]), DeliveredRows(visits, key))
  }

  lemma {:induction false} MarkedAreDelivered(config: Config, r: Round, feeds: map<string, LogFeed>,
                                              copies: map<string, Entries>, visits: seq<Visit>)
    ensures OnlyDeliveredKnown(config, feeds, copies, MarkedAll(config, r, feeds, copies, visits), visits)
  {
    if visits != [] {
      var n := |visits| - 1;
      var before, v := visits[..n], visits[n];
      MarkedAreDelivered(config, r, feeds, copies, before);
      MarkedKeys(config, r, feeds, copies, visits);
      var marked, marked' := MarkedAll(config, r, feeds, copies, before), MarkedAll(config, r, feeds, copies, visits);
      assert visits == before + [v];
      hide MarkedAll, DeliveredRows, RowSet, Prints;
      forall key | key in marked' && key in feeds
        ensures marked'[key].Keys <= copies[key].Keys + PrintSet(config.For(feeds[key]), DeliveredRows(visits, key))
      {
        DeliveredTogether(before, [v], key);
        DeliveredByOne(v, key);
        PrintsOfSet(config.For(feeds[key]), v.rows, DeliveredRows(visits, key));
        PrintsGrow(config.For(feeds[key]), DeliveredRows(before, key), DeliveredRows(visits, key));
      }
    }
  }

  lemma PrintsOfSet(fp: Row -> string, rows: seq<Row>, delivered: set<Row>)
    ensures RowSet(rows) <= delivered ==> Prints(fp, rows) <= PrintSet(fp, delivered)
  {
  }

  lemma PrintsGrow(fp: Row -> string, some: set<Row>, all: set<Row>)
    ensures some <= all ==> PrintSet(fp, some) <= PrintSet(fp, all)
  {
  }

  lemma RoundKnowsDelivered(config: Config, r: Round, before: Books, after: Books, copies: map<string, Entries>,
                            visits: seq<Visit>)
    requires RoundSoFar(config, r, before, after, copies, visits, {})
    ensures OnlyDeliveredKnown(config, before.data.logFeeds, before.known, after.known, visits)
  {
    hide RoundOf, NonePassedOver, StoredAfter, GrownBy, NoRepeats, SomeOverCapVisit, MarkedAll, DeliveredRows, Ages,
        PrintSet;
    var marked := MarkedAll(config, r, before.data.logFeeds, copies, visits);
    MarkedAreDelivered(config, r, before.data.logFeeds, copies, visits);
    MarkedKeys(config, r, before.data.logFeeds, copies, visits);
    forall key | key in after.known
      ensures key in before.known && after.known[key].Keys <= marked[key].Keys
                && copies[key].Keys <= before.known[key].Keys
    {
      AgesKnowNothingNew(before.known[key], copies[key], r.time(0), r.time(0), before.capped);
      AgesKnowNothingNew(marked[key], after.known[key], r.time(0), r.time(|visits|), after.capped);
    }
  }

  lemma KnownTogether(config: Config, feeds: map<string, LogFeed>, feeds': map<string, LogFeed>,
                      a: map<string, Entries>,
                      b: map<string, Entries>, c: map<string, Entries>, done: seq<Visit>, visits: seq<Visit>)
    requires SameRegistrations(feeds, feeds')
    requires OnlyDeliveredKnown(config, feeds, a, b, done) && OnlyDeliveredKnown(config, feeds', b, c, visits)
    ensures OnlyDeliveredKnown(config, feeds, a, c, done + visits)
  {
    hide DeliveredRows, PrintSet;
    forall key | key in c && key in feeds
      ensures key in a && c[key].Keys <= a[key].Keys + PrintSet(config.For(feeds[key]),
                                                                DeliveredRows(done + visits, key))
    {
      var fp := config.For(feeds[key]);
      assert SameRegistration(feeds[key], feeds'[key]);
      DeliveredTogether(done, visits, key);
      PrintsGrow(fp, DeliveredRows(done, key), DeliveredRows(done + visits, key));
      PrintsGrow(fp, DeliveredRows(visits, key), DeliveredRows(done + visits, key));
    }
  }

  // ----- Any number of rounds -----

  /** The rounds follow one another, the first one not before `clock`. */
  ghost predicate InOrder(rounds: seq<Round>, clock: Instant) {
    && (forall r | r in rounds :: r.Ordered())
    && (rounds != [] ==> clock <= rounds[0].time(0))
    && (forall i | 0 < i < |rounds| :: rounds[i - 1].time(rounds[i - 1].Budget()) <= rounds[i].time(0))
  }

  ghost predicate AllAnswered(rounds: seq<Round>, feeds: map<string, LogFeed>, delay: nat) {
    forall r | r in rounds :: r.AnswersAll(feeds, delay)
  }

  lemma AnsweredAlike(rounds: seq<Round>, before: map<string, LogFeed>, after: map<string, LogFeed>, delay: nat)
    requires AllAnswered(rounds, before, delay) && SameRegistrations(before, after)
    ensures AllAnswered(rounds, after, delay)
  {
    forall r | r in rounds ensures r.AnswersAll(after, delay) {
      forall i: nat, key | i < r.Budget() && key in after ensures r.answer(i, key).Answers(after[key].since, delay) {
        assert SameRegistration(before[key], after[key]);
      }
    }
  }

  /** The rounds one by one: the state before and after each, the copies it worked on, its visits. */
  ghost predicate RunOf(config: Config, rounds: seq<Round>, states: seq<Books>, copies: seq<map<string, Entries>>,
                        visited: seq<seq<Visit>>)
  {
    && |states| == |rounds| + 1 && |copies| == |visited| == |rounds|
    && forall n | 0 <= n < |rounds| ::
         RoundSoFar(config, rounds[n], states[n], states[n + 1], copies[n], visited[n], {})
  }

  function Joined(visited: seq<seq<Visit>>): seq<Visit> {
    if visited == [] then [] else Joined(visited[..|visited| - 1]) + visited[|visited| - 1]
  }

  lemma NoRoundRun(config: Config, before: Books)
    ensures RunOf(config, [], [before], [], [])
  {
  }

  lemma OneMoreRound(config: Config, rounds: seq<Round>, states: seq<Books>, copies: seq<map<string, Entries>>,
                     visited: seq<seq<Visit>>, r: Round, after: Books, copy: map<string, Entries>, visits: seq<Visit>)
    requires RunOf(config, rounds, states, copies, visited)
    requires RoundSoFar(config, r, states[|rounds|], after, copy, visits, {})
    ensures RunOf(config, rounds + [r], states + [after], copies + [copy], visited + [visits])
  {
    hide RoundSoFar;
  }

  /** What any number of rounds does, whatever their number: the recorded rows grow by exactly those
      delivered, no registration changes, only delivered rows become known, and as long as no cap
      takes effect no message repeats a row. */
  ghost predicate RunSoFar(config: Config, before: Books, after: Books, visits: seq<Visit>) {
    && after.data == before.data.(logFeeds := after.data.logFeeds)
    && SameRegistrations(before.data.logFeeds, after.data.logFeeds)
    && OnlyDeliveredKnown(config, before.data.logFeeds, before.known, after.known, visits)
    && GrownBy(before.recorded, after.recorded, visits)
    && (before.capped ==> after.capped) && (after.capped ==> before.capped || SomeOverCapVisit(visits))
    && (!after.capped ==> NoRepeats(config.delay, before.data.logFeeds, before.recorded, visits))
  }

  lemma {:induction false} RunsNeverRepeat(config: Config, rounds: seq<Round>, states: seq<Books>,
                                           copies: seq<map<string, Entries>>, visited: seq<seq<Visit>>)
    requires RunOf(config, rounds, states, copies, visited)
    ensures RunSoFar(config, states[0], states[|rounds|], Joined(visited))
  {
    hide RoundSoFar, RunSoFar;
    var n := |rounds| - 1;
    if n < 0 {
      NoRoundsYet(config, states[0]);
    } else {
      RunsNeverRepeat(config, rounds[..n], states[..n + 1], copies[..n], visited[..n]);
      RunGoesOn(config, rounds[n], states[0], states[n], states[n + 1], copies[n], Joined(visited[..n]), visited[n]);
    }
  }

  lemma NoRoundsYet(config: Config, before: Books)
    ensures RunSoFar(config, before, before, [])
  {
  }

  lemma RunGoesOn(config: Config, r: Round, before: Books, between: Books, after: Books, copies: map<string, Entries>,
                  done: seq<Visit>, visits: seq<Visit>)
    requires RunSoFar(config, before, between, done) && RoundSoFar(config, r, between, after, copies, visits, {})
    ensures RunSoFar(config, before, after, done + visits)
  {
    hide RoundOf, NonePassedOver, StoredAfter, SameRegistration, SameRegistrations, GrownBy, NoRepeats, DeliveredRows,
      OnlyDeliveredKnown, Aging, MarkedAll;
    RoundKeepsRegistrations(r, between.data.logFeeds, after.data.logFeeds, visits);
    StillRegistered(before.data.logFeeds, between.data.logFeeds, after.data.logFeeds);
    RoundKnowsDelivered(config, r, between, after, copies, visits);
    KnownTogether(config, before.data.logFeeds, between.data.logFeeds, before.known, between.known, after.known, done,
                  visits);
    GrownTogether(before.recorded, between.recorded, after.recorded, done, visits);
    assert SomeOverCapVisit(done) || SomeOverCapVisit(visits) ==> SomeOverCapVisit(done + visits);
    if !after.capped {
      NewTogether(config.delay, before.data.logFeeds, between.data.logFeeds, before.recorded, between.recorded, done,
                  visits);
    }
  }

  lemma RoundRegisters(config: Config, r: Round, before: Books, after: Books, copies: map<string, Entries>,
                       visits: seq<Visit>)
    requires RoundSoFar(config, r, before, after, copies, visits, {})
    ensures SameRegistrations(before.data.logFeeds, after.data.logFeeds)
  {
    RoundKeepsRegistrations(r, before.data.logFeeds, after.data.logFeeds, visits);
  }

  lemma StillRegistered(a: map<string, LogFeed>, b: map<string, LogFeed>, c: map<string, LogFeed>)
    requires SameRegistrations(a, b) && SameRegistrations(b, c)
    ensures SameRegistrations(a, c)
  {
  }

  lemma GrownTogether(a: Recorded, b: Recorded, c: Recorded, done: seq<Visit>, visits: seq<Visit>)
    requires GrownBy(a, b, done) && GrownBy(b, c, visits)
    ensures GrownBy(a, c, done + visits)
  {
    forall key ensures RowsOf(c, key) == RowsOf(a, key) + DeliveredRows(done + visits, key) {
      DeliveredTogether(done, visits, key);
    }
  }

  /** Messages that repeat nothing recorded by earlier visits repeat nothing those visits delivered. */
  lemma NewTogether(delay: nat, feeds: map<string, LogFeed>, feeds': map<string, LogFeed>, recorded: Recorded,
                    between: Recorded, done: seq<Visit>, visits: seq<Visit>)
    requires SameRegistrations(feeds, feeds') && GrownBy(recorded, between, done)
    requires NoRepeats(delay, feeds, recorded, done) && NoRepeats(delay, feeds', between, visits)
    ensures NoRepeats(delay, feeds, recorded, done + visits)
  {
    hide SafeWindow, DeliveredRows, RowSet;
    var all := done + visits;
    forall i | 0 <= i < |all| && all[i].key in feeds && SafeWindow(feeds[all[i].key].since, delay)
      ensures RowSet(all[i].rows) !! RowsOf(recorded, all[i].key) + DeliveredRows(all[..i], all[i].key)
    {
      var key := all[i].key;
      if i < |done| {
        assert all[..i] == done[..i];
      } else {
        var k := i - |done|;
        assert all[..i] == done + visits[..k] && all[i] == visits[k];
        DeliveredTogether(done, visits[..k], key);
        assert SameRegistration(feeds[key], feeds'[key]);
        assert RowSet(visits[k].rows) !! RowsOf(between, key) + DeliveredRows(visits[..k], key);
      }
    }
  }

  /** What that means for any two messages of a feed whose window cannot redeliver. */
  lemma NeverSentTwice(delay: nat, feeds: map<string, LogFeed>, recorded: Recorded, visits: seq<Visit>, i: nat,
                       j: nat, row: Row)
    requires NoRepeats(delay, feeds, recorded, visits)
    requires i < j < |visits| && visits[i].key == visits[j].key && visits[i].delivered
    requires visits[j].key in feeds && SafeWindow(feeds[visits[j].key].since, delay)
    ensures !(row in visits[i].rows && row in visits[j].rows)
    ensures row in visits[j].rows ==> row !in RowsOf(recorded, visits[j].key)
  {
    hide SafeWindow;
    assert visits[..j][i] == visits[i];
    assert visits[i] in visits[..j];
    assert RowSet(visits[j].rows) !! RowsOf(recorded, visits[j].key) + DeliveredRows(visits[..j], visits[j].key);
    if row in visits[j].rows { assert row in RowSet(visits[j].rows); }
  }

  /** Nothing is lost: a row whose fingerprint neither was known before a run nor belongs to a row
      delivered in it is fresh for a query after the run, or waits behind a full message. */
  lemma NothingIsLost(config: Config, before: Books, after: Books, visits: seq<Visit>, key: string, copy: Entries,
                      rows: seq<Row>, limit: int, row: Row)
    requires RunSoFar(config, before, after, visits) && key in before.data.logFeeds && key in after.known
    requires copy.Keys <= after.known[key].Keys && row in rows
    requires var fp := config.For(before.data.logFeeds[key]);
             && (key in before.known ==> fp(row) !in before.known[key])
             && forall sent | sent in DeliveredRows(visits, key) :: fp(sent) != fp(row)
    ensures var fp := config.For(before.data.logFeeds[key]);
            var fresh' := FreshOf(fp, rows, limit, copy);
            Full(fresh', limit) || fp(row) in Prints(fp, fresh')
  {
    hide GrownBy, NoRepeats, SameRegistrations, DeliveredRows, FreshOf;
    var fp := config.For(before.data.logFeeds[key]);
    UnsentStaysEligible(fp, rows, limit, copy, copy, row);
  }

  // ----- When a feed is visited -----

  /** A round visits a stored feed only if it is enabled and connected and was never checked, or was last
      checked an interval ago; and every such feed, unless its queries are used up. */
  lemma RoundVisitsWhatIsDue(config: Config, r: Round, before: Books, after: Books, copies: map<string, Entries>,
                             visits: seq<Visit>)
    requires RoundSoFar(config, r, before, after, copies, visits, {})
    ensures var feeds, budget := before.data.logFeeds, if r.maxQueries <= 0 then 6 else r.maxQueries;
            && |visits| <= budget
            && (forall v | v in visits :: v.key in feeds)
            && (forall key | key in feeds ::
                  var feed := feeds[key];
                  var ready := && !feed.disabled && feed.service in {"gateway", "auth", "report", "post"}
                               && (|| feed.lastCheckedAt == 0
                                   || r.time(0) >= feed.lastCheckedAt +
                                        (if feed.intervalSec <= 0 then 300 else feed.intervalSec) * SECOND);
                  && (key in VisitKeys(visits) ==> ready)
                  && (ready && |visits| < budget ==> key in VisitKeys(visits)))
  {
    hide Aging, StoredAfter, GrownBy, NoRepeats, SomeOverCapVisit, MarkedAll, VisitOf;
    var feeds := before.data.logFeeds;
    forall v | v in visits ensures v.key in feeds && Due(feeds[v.key], r.time(0)) {
      var i :| 0 <= i < |visits| && visits[i] == v;
    }
    forall key | key in VisitKeys(visits) ensures key in feeds && Due(feeds[key], r.time(0)) {
      var v :| v in visits && v.key == key;
    }
  }

  /** A round changes nothing of when a feed is due but the time of its last check, which is that of the
      answer if it failed or was delivered, and stays if a message could not be sent. */
  lemma RoundStoresChecks(config: Config, r: Round, before: Books, after: Books, copies: map<string, Entries>,
                          visits: seq<Visit>, key: string)
    requires RoundSoFar(config, r, before, after, copies, visits, {}) && r.Ordered() && key in before.data.logFeeds
    ensures key in after.data.logFeeds
    ensures var was, now := before.data.logFeeds[key], after.data.logFeeds[key];
            && now.service == was.service && now.disabled == was.disabled && now.intervalSec == was.intervalSec
            && now.lastCheckedAt >= was.lastCheckedAt
            && (forall i | 0 <= i < |visits| && visits[i].key == key && Checks(r, i, visits[i]) ::
                  now.lastCheckedAt == r.answer(i, key).receivedAt)
            && ((forall i | 0 <= i < |visits| && visits[i].key == key :: !Checks(r, i, visits[i])) ==>
                  now.lastCheckedAt == was.lastCheckedAt)
  {
    var feeds, after' := before.data.logFeeds, after.data.logFeeds;
    RoundParts(config, r, before, after, copies, visits);
    hide RoundSoFar, RoundOf, StoredAfter, Due, Checks, Round.Ordered, Round.Budget;
    if i :| 0 <= i < |visits| && visits[i].key == key {
      VisitsAreApart(config, r, feeds, copies, visits, i);
      VisitStoresCheck(r, feeds, after', visits, i);
      AnswersComeLater(r, i, key);
      CheckIsPast(config, r, before, after, copies, visits, visits[i]);
    } else {
      UnvisitedStays(r, feeds, after', visits, key);
    }
  }

  lemma CheckIsPast(config: Config, r: Round, before: Books, after: Books, copies: map<string, Entries>,
                    visits: seq<Visit>, v: Visit)
    requires RoundSoFar(config, r, before, after, copies, visits, {}) && v in visits
    ensures v.key in before.data.logFeeds && before.data.logFeeds[v.key].lastCheckedAt <= r.time(0)
  {
    RoundVisitsWhatIsDue(config, r, before, after, copies, visits);
    hide RoundSoFar;
  }

  lemma RoundParts(config: Config, r: Round, before: Books, after: Books, copies: map<string, Entries>,
                   visits: seq<Visit>)
    requires RoundSoFar(config, r, before, after, copies, visits, {})
    ensures RoundOf(config, r, before.data.logFeeds, copies, visits) && |visits| <= r.Budget()
    ensures StoredAfter(r, before.data.logFeeds, after.data.logFeeds, visits)
  {
    hide Aging, GrownBy, NoRepeats, SomeOverCapVisit, MarkedAll, VisitOf, NonePassedOver, Due, StoredAfter;
  }

  lemma VisitsAreApart(config: Config, r: Round, feeds: map<string, LogFeed>, copies: map<string, Entries>,
                       visits: seq<Visit>, i: nat)
    requires RoundOf(config, r, feeds, copies, visits) && i < |visits|
    ensures i < r.Budget() && forall j | 0 <= j < |visits| && visits[j].key == visits[i].key :: j == i
  {
    hide Due, VisitOf;
  }

  lemma VisitStoresCheck(r: Round, before: map<string, LogFeed>, after: map<string, LogFeed>, visits: seq<Visit>,
                         i: nat)
    requires StoredAfter(r, before, after, visits) && i < |visits| && visits[i].key in before
    ensures visits[i].key in after
    ensures var was, now := before[visits[i].key], after[visits[i].key];
            && now.service == was.service && now.disabled == was.disabled && now.intervalSec == was.intervalSec
            && now.lastCheckedAt == if Checks(r, i, visits[i]) then r.answer(i, visits[i].key).receivedAt
                                    else was.lastCheckedAt
  {
    hide VisitKeys;
    assert StoredVisit(r.answer(i, visits[i].key), visits[i], before, after);
  }

  lemma UnvisitedStays(r: Round, before: map<string, LogFeed>, after: map<string, LogFeed>, visits: seq<Visit>,
                       key: string)
    requires StoredAfter(r, before, after, visits) && key in before
    requires forall i | 0 <= i < |visits| :: visits[i].key != key
    ensures key in after && after[key] == before[key]
  {
    hide StoredVisit;
  }

  lemma AnswersComeLater(r: Round, i: nat, key: string)
    requires r.Ordered() && i < r.Budget()
    ensures r.time(0) <= r.answer(i, key).receivedAt
  {
    r.TimePasses(0, i);
    assert r.answer(i, key).After(r.time(i));
  }

  /** The i-th visit of a round stores the time of its answer. */
  predicate Checks(r: Round, i: nat, v: Visit) {
    r.answer(i, v.key).rows.None? || v.delivered
  }

  /** From the m-th to the n-th state of a run a feed stays enabled or not, connected or not, with its
      interval; its last check is never taken back, and the same if no visit between stores one. */
  lemma {:induction false} ChecksAreKept(config: Config, rounds: seq<Round>, states: seq<Books>,
                                         copies: seq<map<string, Entries>>, visited: seq<seq<Visit>>, clock: Instant,
                                         m: nat, n: nat, key: string)
    requires RunOf(config, rounds, states, copies, visited) && InOrder(rounds, clock)
    requires m <= n <= |rounds| && key in states[m].data.logFeeds
    decreases n - m
    ensures key in states[n].data.logFeeds
    ensures var was, now := states[m].data.logFeeds[key], states[n].data.logFeeds[key];
            && now.service == was.service && now.disabled == was.disabled && now.intervalSec == was.intervalSec
            && now.lastCheckedAt >= was.lastCheckedAt
            && ((forall k, i | m <= k < n && 0 <= i < |visited[k]| && visited[k][i].key == key ::
                   !Checks(rounds[k], i, visited[k][i])) ==> now.lastCheckedAt == was.lastCheckedAt)
  {
    hide RoundSoFar, Round.Ordered, Checks;
    if m < n {
      assert rounds[n - 1] in rounds;
      ChecksAreKept(config, rounds, states, copies, visited, clock, m, n - 1, key);
      RoundStoresChecks(config, rounds[n - 1], states[n - 1], states[n], copies[n - 1], visited[n - 1], key);
    }
  }

  lemma VisitComesLater(config: Config, r: Round, before: Books, after: Books, copies: map<string, Entries>,
                        visits: seq<Visit>, v: Visit, checked: Instant, interval: int)
    requires RoundSoFar(config, r, before, after, copies, visits, {}) && v in visits && v.key in before.data.logFeeds
    requires before.data.logFeeds[v.key].lastCheckedAt >= checked > 0
    requires before.data.logFeeds[v.key].intervalSec == interval
    ensures r.time(0) >= checked + (if interval <= 0 then 300 else interval) * SECOND
  {
    RoundVisitsWhatIsDue(config, r, before, after, copies, visits);
    hide RoundSoFar;
  }

  /** Over any run: two visits of a feed, the first of which stored its check, are at least its interval
      apart. */
  lemma VisitsAreSpaced(config: Config, rounds: seq<Round>, states: seq<Books>, copies: seq<map<string, Entries>>,
                        visited: seq<seq<Visit>>, clock: Instant, m: nat, i: nat, n: nat, j: nat)
    requires RunOf(config, rounds, states, copies, visited) && InOrder(rounds, clock) && 0 < clock
    requires m < n < |rounds| && i < |visited[m]| && j < |visited[n]| && visited[m][i].key == visited[n][j].key
    requires rounds[m].answer(i, visited[m][i].key).rows.None? || visited[m][i].delivered
    ensures visited[m][i].key in states[0].data.logFeeds
    ensures var feed := states[0].data.logFeeds[visited[m][i].key];
            rounds[n].time(0) >= rounds[m].answer(i, visited[m][i].key).receivedAt +
                                 (if feed.intervalSec <= 0 then 300 else feed.intervalSec) * SECOND
  {
    var key := visited[m][i].key;
    CheckIsStored(config, rounds, states, copies, visited, clock, m, i);
    hide RoundSoFar, Round.Ordered, InOrder, Checks;
    ChecksAreKept(config, rounds, states, copies, visited, clock, m + 1, n, key);
    VisitComesLater(config, rounds[n], states[n], states[n + 1], copies[n], visited[n], visited[n][j],
                    rounds[m].answer(i, key).receivedAt, states[0].data.logFeeds[key].intervalSec);
  }

  lemma CheckIsStored(config: Config, rounds: seq<Round>, states: seq<Books>, copies: seq<map<string, Entries>>,
                      visited: seq<seq<Visit>>, clock: Instant, m: nat, i: nat)
    requires RunOf(config, rounds, states, copies, visited) && InOrder(rounds, clock) && 0 < clock
    requires m < |rounds| && i < |visited[m]| && Checks(rounds[m], i, visited[m][i])
    ensures var key, feeds, after := visited[m][i].key, states[0].data.logFeeds, states[m + 1].data.logFeeds;
            && key in feeds && key in after
            && after[key].lastCheckedAt == rounds[m].answer(i, key).receivedAt > 0
            && after[key].service == feeds[key].service && after[key].disabled == feeds[key].disabled
            && after[key].intervalSec == feeds[key].intervalSec
            && !after[key].disabled && after[key].service in {"gateway", "auth", "report", "post"}
  {
    hide RoundSoFar;
    var r, key := rounds[m], visited[m][i].key;
    assert r in rounds && visited[m][i] in visited[m];
    RoundVisitsWhatIsDue(config, r, states[m], states[m + 1], copies[m], visited[m]);
    RunKeepsKeys(config, rounds, states, copies, visited, m);
    ChecksAreKept(config, rounds, states, copies, visited, clock, 0, m, key);
    RoundStoresChecks(config, r, states[m], states[m + 1], copies[m], visited[m], key);
    RoundsAreLater(rounds, clock, m);
    RoundParts(config, r, states[m], states[m + 1], copies[m], visited[m]);
    AnswersComeLater(r, i, key);
  }

  lemma {:induction false} RunKeepsKeys(config: Config, rounds: seq<Round>, states: seq<Books>,
                                        copies: seq<map<string, Entries>>, visited: seq<seq<Visit>>, n: nat)
    requires RunOf(config, rounds, states, copies, visited) && n <= |rounds|
    ensures states[n].data.logFeeds.Keys == states[0].data.logFeeds.Keys
  {
    hide RoundSoFar, SameRegistration;
    if n > 0 {
      RunKeepsKeys(config, rounds, states, copies, visited, n - 1);
      RoundRegisters(config, rounds[n - 1], states[n - 1], states[n], copies[n - 1], visited[n - 1]);
    }
  }

  lemma {:induction false} RoundsAreLater(rounds: seq<Round>, clock: Instant, n: nat)
    requires InOrder(rounds, clock) && n < |rounds|
    ensures clock <= rounds[n].time(0)
  {
    if n > 0 {
      RoundsAreLater(rounds, clock, n - 1);
      assert rounds[n - 1] in rounds;
      rounds[n - 1].TimePasses(0, rounds[n - 1].Budget());
    }
  }

  lemma ReadyIsVisited(config: Config, r: Round, before: Books, after: Books, copies: map<string, Entries>,
                       visits: seq<Visit>, key: string, checked: Instant, interval: int)
    requires RoundSoFar(config, r, before, after, copies, visits, {}) && key in before.data.logFeeds
    requires var feed := before.data.logFeeds[key];
             && !feed.disabled && feed.service in {"gateway", "auth", "report", "post"}
             && feed.lastCheckedAt == checked && feed.intervalSec == interval
    requires r.time(0) >= checked + (if interval <= 0 then 300 else interval) * SECOND
    ensures key in VisitKeys(visits) || |visits| == if r.maxQueries <= 0 then 6 else r.maxQueries
  {
    RoundVisitsWhatIsDue(config, r, before, after, copies, visits);
    hide RoundSoFar;
  }

  /** And no visit is missed: a feed that was visited and checked is visited again by the first round
      that begins its interval later, or that round used all its queries. */
  lemma VisitedWhenDue(config: Config, rounds: seq<Round>, states: seq<Books>, copies: seq<map<string, Entries>>,
                       visited: seq<seq<Visit>>, clock: Instant, m: nat, i: nat, n: nat)
    requires RunOf(config, rounds, states, copies, visited) && InOrder(rounds, clock) && 0 < clock
    requires m < n < |rounds| && i < |visited[m]|
    requires rounds[m].answer(i, visited[m][i].key).rows.None? || visited[m][i].delivered
    requires forall k, j | m < k < n && 0 <= j < |visited[k]| && visited[k][j].key == visited[m][i].key ::
               rounds[k].answer(j, visited[k][j].key).rows.Some? && !visited[k][j].delivered
    requires visited[m][i].key in states[0].data.logFeeds ==>
               var feed := states[0].data.logFeeds[visited[m][i].key];
               rounds[n].time(0) >= rounds[m].answer(i, visited[m][i].key).receivedAt +
                                    (if feed.intervalSec <= 0 then 300 else feed.intervalSec) * SECOND
    ensures visited[m][i].key in VisitKeys(visited[n])
              || |visited[n]| == if rounds[n].maxQueries <= 0 then 6 else rounds[n].maxQueries
  {
    var key := visited[m][i].key;
    CheckIsStored(config, rounds, states, copies, visited, clock, m, i);
    hide RoundSoFar, Round.Ordered, InOrder;
    ChecksAreKept(config, rounds, states, copies, visited, clock, m + 1, n, key);
    ReadyIsVisited(config, rounds[n], states[n], states[n + 1], copies[n], visited[n], key,
                   rounds[m].answer(i, key).receivedAt, states[0].data.logFeeds[key].intervalSec);
  }

  /** The same for a feed that no round has checked yet, from its stored check or without one. */
  lemma FirstVisitWhenDue(config: Config, rounds: seq<Round>, states: seq<Books>, copies: seq<map<string, Entries>>,
                          visited: seq<seq<Visit>>, clock: Instant, n: nat, key: string)
    requires RunOf(config, rounds, states, copies, visited) && InOrder(rounds, clock) && n < |rounds|
    requires forall k, j | 0 <= k < n && 0 <= j < |visited[k]| && visited[k][j].key == key ::
               rounds[k].answer(j, visited[k][j].key).rows.Some? && !visited[k][j].delivered
    requires key in states[0].data.logFeeds
    ensures var feed := states[0].data.logFeeds[key];
            var ready := && !feed.disabled && feed.service in {"gateway", "auth", "report", "post"}
                         && (|| feed.lastCheckedAt == 0
                             || rounds[n].time(0) >= feed.lastCheckedAt +
                                  (if feed.intervalSec <= 0 then 300 else feed.intervalSec) * SECOND);
            && (key in VisitKeys(visited[n]) ==> ready)
            && (ready ==> || key in VisitKeys(visited[n])
                          || |visited[n]| == if rounds[n].maxQueries <= 0 then 6 else rounds[n].maxQueries)
  {
    hide RoundSoFar, Round.Ordered;
    ChecksAreKept(config, rounds, states, copies, visited, clock, 0, n, key);
    RoundVisitsWhatIsDue(config, rounds[n], states[n], states[n + 1], copies[n], visited[n]);
  }
}

/** The log feed service, whose rounds work on snapshots of the stored feeds. */
module LogFeedMonitor {
  import opened Clock
  import opened LogFeeds
  import opened LogFeedRuns
  import opened StateStore
  import opened Text
  import opened Validation
  import opened Wrappers

  const NO_FEED := LogFeed("", "", "", 0, "", 0, 0, null, false, "")

  function Current(data: Data, key: string): LogFeed {
    if key in data.logFeeds then data.logFeeds[key] else NO_FEED
  }

  lemma WithFeedIsSettled(data: Data, key: string, feed: LogFeed)
    requires Settled(data) && FeedDefaults(feed) == feed && feed.fingerprints != null
    ensures Settled(WithFeed(data, key, feed))
    ensures TimeMaps(WithFeed(data, key, feed)) <= TimeMaps(data) + {feed.fingerprints}
  {
    hide DashboardDefaults;
  }

  lemma WithoutFeedIsSettled(data: Data, key: string)
    requires Settled(data)
    ensures Settled(data.(logFeeds := data.logFeeds - {key}))
    ensures TimeMaps(data.(logFeeds := data.logFeeds - {key})) <= TimeMaps(data)
  {
    hide DashboardDefaults, FeedDefaults;
  }

  lemma SettledFeeds(data: Data, key: string)
    requires Settled(data) && key in data.logFeeds
    ensures FeedDefaults(data.logFeeds[key]) == data.logFeeds[key] && data.logFeeds[key].fingerprints in TimeMaps(data)
  {
    assert data.logFeeds[key].fingerprints in FeedMaps(data);
  }

  lemma SettledMaps(data: Data)
    requires Settled(data)
    ensures forall key | key in data.logFeeds ::
              data.logFeeds[key].fingerprints in TimeMaps(data) && data.logFeeds[key].fingerprints != null
  {
    hide DashboardDefaults, FeedDefaults;
    forall key | key in data.logFeeds ensures data.logFeeds[key].fingerprints in TimeMaps(data) {
      assert data.logFeeds[key].fingerprints in FeedMaps(data);
    }
  }

  lemma NormalIsSmall(data: Data, now: Instant)
    requires Normal(data, now)
    ensures AllSmall(data)
  {
    hide Settled;
  }

  lemma PositiveLimit(feed: LogFeed)
    requires FeedDefaults(feed) == feed
    ensures feed.limit > 0
  {
  }

  const MODES: set<string> := {"errors", "slow", "recent", "security"}

  function FeedKey(service: string, mode: string): string {
    service + ":" + mode
  }

  lemma NamesHaveNoColon(service: string)
    requires NormalizeService(service).Some?
    ensures ':' !in NormalizeService(service).value
  {
    hide ToLower, Trim;
  }

  /** Registrations share a key exactly if they are of one service and one mode. */
  lemma FeedKeysAgree(a: string, mode: string, b: string, mode': string)
    requires NormalizeService(a).Some? && NormalizeService(b).Some?
    ensures FeedKey(NormalizeService(a).value, mode) == FeedKey(NormalizeService(b).value, mode') <==>
            NormalizeService(a) == NormalizeService(b) && mode == mode'
  {
    hide NormalizeService, Validation.SERVICES;
    NamesHaveNoColon(a);
    NamesHaveNoColon(b);
    var service, service' := NormalizeService(a).value, NormalizeService(b).value;
    if service + ":" + mode == service' + ":" + mode' {
      assert service + ":" + mode == service + (":" + mode) && service' + ":" + mode' == service' + (":" + mode');
      PrefixesAgree(service, mode, service', mode', ':');
    }
  }

  class LogFeedService {
    const config: Config
    const store: Store
    /** For each feed the rows sent, or taken as baseline, since it was registered. */
    ghost var recorded: Recorded
    ghost var clock: Instant

    ghost predicate FeedCovered(feed: LogFeed, rows: set<Row>, at: Instant)
      reads feed.fingerprints
    {
      feed.fingerprints != null && Covers(config.For(feed), config.delay, rows, feed.fingerprints.entries, at)
    }

    /** As long as no cap took a live fingerprint, the known fingerprints cover the recorded rows. */
    ghost predicate Valid()
      reads this, store, TimeMaps(store.data)
    {
      && store.Valid() && AllSmall(store.data)
      && recorded.Keys <= store.data.logFeeds.Keys
      && (!store.capped ==> forall key | key in recorded :: FeedCovered(store.data.logFeeds[key], recorded[key], clock))
    }

    /** The contents of the feeds' maps. */
    ghost function Known(): map<string, Entries>
      reads this, store, TimeMaps(store.data)
    {
      map key | key in store.data.logFeeds && store.data.logFeeds[key].fingerprints in TimeMaps(store.data) &&
                store.data.logFeeds[key].fingerprints != null ::
        store.data.logFeeds[key].fingerprints.entries
    }

    ghost function Now(): Books
      reads this, store, TimeMaps(store.data)
    {
      Books(store.data, Known(), recorded, store.capped)
    }

    /** Nothing changed, not in the service, not in the store and not in any map of it. */
    twostate predicate Untouched()
      reads this, store, TimeMaps(store.data)
    {
      && recorded == old(recorded) && clock == old(clock)
      && store.data == old(store.data) && store.capped == old(store.capped)
      && forall m: TimedMap?<Instant> | m in TimeMaps(store.data) && m != null :: m.entries == old(m.entries)
    }

    /** Takes over a loaded store, with the rows earlier runs of the service recorded. */
    constructor (config: Config, store: Store, ghost recorded: Recorded, ghost clock: Instant)
      requires store.Valid() && AllSmall(store.data) && recorded.Keys <= store.data.logFeeds.Keys
      requires !store.capped ==> forall key | key in recorded ::
                 var feed := store.data.logFeeds[key];
                 Covers(config.For(feed), config.delay, recorded[key], feed.fingerprints.entries, clock)
      ensures Valid() && this.config == config && this.store == store && this.recorded == recorded
                && this.clock == clock
    {
      this.config, this.store, this.recorded, this.clock := config, store, recorded, clock;
    }

    lemma StoredFeed(key: string)
      requires Valid() && key in store.data.logFeeds
      ensures var feed := store.data.logFeeds[key];
              && FeedDefaults(feed) == feed && feed.fingerprints != null && feed.fingerprints in TimeMaps(store.data)
              && |feed.fingerprints.entries| <= FINGERPRINT_CAP
              && (!store.capped ==> FeedCovered(feed, RowsOf(recorded, key), clock))
    {
      hide Covers, FeedDefaults;
      SettledFeeds(store.data, key);
      NothingToCover(config.For(store.data.logFeeds[key]), config.delay,
                     store.data.logFeeds[key].fingerprints.entries, clock);
    }

    lemma KnownContents()
      requires Valid()
      ensures Known().Keys == store.data.logFeeds.Keys
      ensures forall key | key in store.data.logFeeds ::
                && store.data.logFeeds[key].fingerprints != null
                    && store.data.logFeeds[key].fingerprints in TimeMaps(store.data)
                && Known()[key] == store.data.logFeeds[key].fingerprints.entries
    {
      hide Covers, Settled, AllSmall;
      OnlyRegistered();
      SettledMaps(store.data);
    }

    lemma AgedNow(known: map<string, Entries>, now: Instant)
      requires Settled(store.data) && known.Keys == store.data.logFeeds.Keys
      requires forall key | key in known ::
                 Remains(known[key], store.data.logFeeds[key].fingerprints.entries, now, store.capped)
      ensures Aging(known, Known(), now, now, store.capped)
    {
      hide Remains, Settled;
      SettledMaps(store.data);
      forall key | key in known ensures Ages(known[key], Known()[key], now, now, store.capped) {
        assert Remains(known[key], Known()[key], now, store.capped);
      }
    }

    /** An update of the store that leaves every feed but one as it is; every stored map is pruned on
        the way, and those feeds still cover their rows. */
    method Apply(ghost key: string, fn: Data -> Data, first: Instant, second: Instant)
      requires Valid() && clock <= first <= second
      requires Settled(fn(store.data))
      requires forall k | k in recorded && k != key ::
                 k in fn(store.data).logFeeds && fn(store.data).logFeeds[k] == store.data.logFeeds[k]
      requires forall m: TimedMap?<Instant> | m in TimeMaps(fn(store.data)) && m != null :: allocated(m)
      modifies store, TimeMaps(store.data), TimeMaps(fn(store.data))
      ensures store.Valid() && AllSmall(store.data) && recorded.Keys - {key} <= store.data.logFeeds.Keys
      ensures store.data == fn(old(store.data))
      ensures forall m: TimedMap?<Instant> | m in TimeMaps(store.data) && m != null ::
                old(allocated(m)) && Remains(old(m.entries), m.entries, second, store.capped)
      ensures OthersCovered(key, second)
      ensures old(store.capped) ==> store.capped
      ensures old(AllSmall(fn(store.data))) ==> store.capped == old(store.capped)
    {
      hide Settled, Defaulted, Remains, SameButMadeMaps, Normal, FeedDefaults, Covers;
      ghost var before := store.data;
      store.Update(fn, first, second);
      NormalIsSmall(store.data, second);
      MadeMapsSettle(fn(before), store.data);
      if !store.capped {
        forall k | k in recorded && k != key ensures FeedCovered(store.data.logFeeds[k], recorded[k], second) {
          var feed := before.logFeeds[k];
          SettledFeeds(store.data, k);
          CoversRemains(config.For(feed), config.delay, recorded[k], old(feed.fingerprints.entries),
                        feed.fingerprints.entries, clock, second);
        }
      }
    }

    /** An update of one feed. The cap takes effect only if the feed's map is over it. */
    method Put(key: string, edit: LogFeed -> LogFeed, first: Instant, second: Instant)
      requires Valid() && clock <= first <= second
      requires var feed := edit(Current(store.data, key));
               FeedDefaults(feed) == feed && feed.fingerprints != null && allocated(feed.fingerprints)
      modifies store, TimeMaps(store.data), edit(Current(store.data, key)).fingerprints
      ensures store.Valid() && AllSmall(store.data) && recorded.Keys <= store.data.logFeeds.Keys
      ensures store.data == WithFeed(old(store.data), key, edit(Current(old(store.data), key)))
      ensures var m := store.data.logFeeds[key].fingerprints;
              m != null && old(allocated(m)) && Remains(old(m.entries), m.entries, second, store.capped)
      ensures Aging(old(Known()[key := edit(Current(store.data, key)).fingerprints.entries]), Known(), second, second,
                    store.capped)
      ensures OthersCovered(key, second)
      ensures old(store.capped) ==> store.capped
      ensures store.capped ==> old(store.capped) || old(|edit(Current(store.data,
                                                                      key)).fingerprints.entries|) > FINGERPRINT_CAP
    {
      hide Settled, Remains, FeedDefaults, FeedCovered, Aging, Known;
      var fn := (d: Data) => WithFeed(d, key, edit(Current(d, key)));
      WithFeedIsSettled(store.data, key, edit(Current(store.data, key)));
      SettledMaps(store.data);
      ghost var known := Known()[key := edit(Current(store.data, key)).fingerprints.entries];
      KnownContents();
      Apply(key, fn, first, second);
      SettledMaps(store.data);
      AgedNow(known, second);
    }

    ghost predicate OthersCovered(key: string, now: Instant)
      reads this, store, TimeMaps(store.data)
      requires recorded.Keys - {key} <= store.data.logFeeds.Keys
    {
      !store.capped ==> forall k | k in recorded && k != key :: FeedCovered(store.data.logFeeds[k], recorded[k], now)
    }

    lemma OnlyRegistered()
      requires Valid()
      ensures Settled(store.data) && AllSmall(store.data) && recorded.Keys <= store.data.logFeeds.Keys
    {
      hide Settled, Covers, AllSmall;
    }

    ghost method Remember(key: string, rows: set<Row>, now: Instant)
      requires store.Valid() && AllSmall(store.data) && recorded.Keys <= store.data.logFeeds.Keys
                 && OthersCovered(key, now)
      requires key in store.data.logFeeds && (!store.capped ==> FeedCovered(store.data.logFeeds[key], rows, now))
      modifies this
      ensures Valid() && recorded == old(recorded)[key := rows] && clock == now
    {
      hide Settled, Covers;
      recorded := recorded[key := rows];
      clock := now;
    }

    ghost method Forget(key: string, now: Instant)
      requires store.Valid() && AllSmall(store.data) && recorded.Keys - {key} <= store.data.logFeeds.Keys
                 && OthersCovered(key, now)
      modifies this
      ensures Valid() && recorded == old(recorded) - {key} && clock == now
    {
      hide Settled, Covers;
      recorded := recorded - {key};
      clock := now;
    }

    /** Updates a feed whose fingerprints cover `rows`, which become the rows recorded for the key. */
    method Record(key: string, edit: LogFeed -> LogFeed, ghost rows: set<Row>, ghost now: Instant, first: Instant,
                  second: Instant)
      requires Valid() && clock <= first <= second && now <= second
      requires var feed := edit(Current(store.data, key));
               && FeedDefaults(feed) == feed && feed.fingerprints != null && allocated(feed.fingerprints)
               && (!store.capped ==> FeedCovered(feed, rows, now))
      modifies this, store, TimeMaps(store.data), edit(Current(store.data, key)).fingerprints
      ensures Valid() && clock == second
      ensures store.data == WithFeed(old(store.data), key, edit(Current(old(store.data), key)))
      ensures var m := store.data.logFeeds[key].fingerprints;
              m != null && old(allocated(m)) && Remains(old(m.entries), m.entries, second, store.capped)
      ensures Aging(old(Known()[key := edit(Current(store.data, key)).fingerprints.entries]), Known(), second, second,
                    store.capped)
      ensures recorded == old(recorded)[key := rows]
      ensures old(store.capped) ==> store.capped
      ensures store.capped ==> old(store.capped) || old(|edit(Current(store.data,
                                                                      key)).fingerprints.entries|) > FINGERPRINT_CAP
    {
      hide Covers, Remains, HasDefaults, FeedDefaults, Valid, Settled;
      ghost var feed := edit(Current(store.data, key));
      Put(key, edit, first, second);
      if !store.capped {
        EarlierCover(config.For(feed), config.delay, rows, old(feed.fingerprints.entries), now, second);
        CoversRemains(config.For(feed), config.delay, rows, old(feed.fingerprints.entries), feed.fingerprints.entries,
                      second, second);
      }
      Remember(key, rows, second);
    }

    /** Registers a feed under the names of its service and mode: the rows its query returns become
        the baseline and are not sent. Anything else is refused or answered without an effect. */
    method WatchLogFeed(channelID: string, service: string, mode: string, since: string, intervalSec: int, limit: int,
                        a: Answer)
      returns (ok: bool)
      requires Valid() && a.After(clock) && a.Answers(since, config.delay)
      modifies this, store, TimeMaps(store.data)
      ensures Valid()
      ensures ok <==> && NormalizeService(service).Some? && OpsConnected(NormalizeService(service).value)
                      && ToLower(Trim(mode)) in MODES && ParseSince(since).Some? && !Blank(channelID) && a.rows.Some?
      ensures !ok ==> Untouched()
      ensures ok ==>
                var name, kind := NormalizeService(service).value, ToLower(Trim(mode));
                var key := name + ":" + kind;
                && recorded == old(recorded)[key := RowSet(a.rows.value)]
                && key in store.data.logFeeds
                && var feed := store.data.logFeeds[key];
                && store.data == WithFeed(old(store.data), key, feed)
                && feed == LogFeed(name, kind, Trim(channelID), if intervalSec <= 0 then 300 else intervalSec, since,
                                   if limit <= 0 then 10 else limit, a.receivedAt, feed.fingerprints, false, "ACTIVE")
                && feed.fingerprints != null && fresh(feed.fingerprints)
                && Remains(MarkedBy(config.For(feed), map[], a.rows.value, a.receivedAt), feed.fingerprints.entries,
                           a.second, store.capped)
      ensures store.capped ==> old(store.capped) || (a.rows.Some? && |a.rows.value| > FINGERPRINT_CAP)
    {
      hide Covers, Remains, HasDefaults, MarkedBy, Settled, NormalizeService, Trim, Aging, Known, SecondOf;
      var normalized := NormalizeService(service);
      if normalized.None? || !OpsConnected(normalized.value) { return false; }
      var kind := ToLower(Trim(mode));
      if kind !in MODES { return false; }
      if ParseSince(since).None? { return false; }
      if Blank(channelID) || a.rows.None? { return false; }
      var rows, now := a.rows.value, a.receivedAt;
      var fp := config.prints(normalized.value, kind);
      var fingerprints := Baseline(fp, rows, now);
      forall row | row in rows ensures SecondOf(row) + config.delay <= now {
        AnsweredLater(row, a.queriedAt, ParseSince(since).value, config.delay, now);
      }
      BaselineCovers(fp, config.delay, rows, now);
      var baseline := new TimedMap<Instant>(fingerprints);
      BlankSinceIsUnsupported(since);
      var feed := LogFeed(normalized.value, kind, Trim(channelID), if intervalSec <= 0 then 300 else intervalSec, since,
                          if limit <= 0 then 10 else limit, now, baseline, false, "ACTIVE");
      Record(FeedKey(normalized.value, kind), current => feed, RowSet(rows), now, a.first, a.second);
      return true;
    }

    /** Selects and marks the fresh rows of an answer in the map of a feed that is not stored. */
    method Select(feed: LogFeed, a: Answer, ghost before: set<Row>, ghost taken: Instant) returns (rows: seq<Row>)
      requires feed.fingerprints != null && a.rows.Some? && a.Answers(feed.since, config.delay) && taken <= a.queriedAt
      requires !store.capped ==> FeedCovered(feed, before, taken)
      modifies feed.fingerprints
      ensures rows == FreshOf(config.For(feed), a.rows.value, feed.limit, old(feed.fingerprints.entries))
      ensures feed.fingerprints.entries ==
              MarkedBy(config.For(feed), old(feed.fingerprints.entries), rows, a.receivedAt)
      ensures !store.capped ==> FeedCovered(feed, before + RowSet(rows), taken)
      ensures !store.capped && SafeWindow(feed.since, config.delay) ==> RowSet(rows) !! before
    {
      hide Covers, MarkedBy, FreshOf, ParseSince, SecondOf, Returned, Outlived;
      var fp := config.For(feed);
      ghost var known := feed.fingerprints.entries;
      rows := SelectFresh(fp, a.rows.value, feed.limit, feed.fingerprints, a.receivedAt);
      if !store.capped {
        FreshIsNew(fp, a.rows.value, feed.limit, known);
        forall row | row in rows ensures SecondOf(row) + config.delay <= a.receivedAt {
          AnsweredLater(row, a.queriedAt, ParseSince(feed.since).value, config.delay, a.receivedAt);
        }
        MarkingCovers(fp, config.delay, known, rows, a.receivedAt, before, taken);
        if SafeWindow(feed.since, config.delay) {
          FreshIsNotRecorded(fp, config.delay, a.rows.value, feed.limit, known, before, taken,
                             ParseSince(feed.since).value,
                             a.queriedAt);
        }
      }
    }

    /** A feed of a snapshot, still to be refreshed: an untouched copy, apart from the store's maps,
        that covers the rows recorded for its key. */
    ghost predicate PendingFeed(key: string, feed: LogFeed, now: Instant)
      reads this, store, feed.fingerprints
    {
      && key in store.data.logFeeds && SameRegistration(store.data.logFeeds[key], feed)
      && feed.limit > 0 && feed.fingerprints != null && feed.fingerprints !in TimeMaps(store.data)
      && (!store.capped ==> FeedCovered(feed, RowsOf(recorded, key), now))
    }

    lemma SameContents(key: string)
      requires Valid() && key in store.data.logFeeds
      ensures store.data.logFeeds[key].fingerprints != null
      ensures Known()[key := store.data.logFeeds[key].fingerprints.entries] == Known()
    {
      hide Known;
      KnownContents();
    }

    /** A failed query changes the status of the stored feed and records nothing. */
    method FailQuery(key: string, a: Answer)
      requires Valid() && key in store.data.logFeeds && a.After(clock)
      modifies this, store, TimeMaps(store.data)
      ensures Valid() && clock == a.second && Grown(old(recorded), recorded, key, {})
      ensures store.data ==
              WithFeed(old(store.data), key,
                       old(store.data).logFeeds[key].(status := a.failure, lastCheckedAt := a.receivedAt))
      ensures Aging(old(Known()), Known(), a.second, a.second, store.capped)
      ensures store.capped == old(store.capped)
    {
      hide Covers, Remains, Settled, FeedDefaults, Grown, Aging, Valid, WithFeed;
      StoredFeed(key);
      KeepsDefaults(store.data.logFeeds[key], null, a.receivedAt, a.failure);
      NothingMoreGrown(recorded, key);
      SameContents(key);
      hide Known;
      Record(key, (current: LogFeed) => current.(status := a.failure, lastCheckedAt := a.receivedAt),
             RowsOf(recorded, key), clock, a.first, a.second);
    }

    /** A delivered message stores the marked map of the copy and records its rows. */
    method Succeed(key: string, feed: LogFeed, ghost rows: seq<Row>, a: Answer, ghost taken: Instant)
      requires Valid() && key in store.data.logFeeds && a.After(clock) && taken <= a.queriedAt
      requires feed.fingerprints != null && feed.fingerprints !in TimeMaps(store.data)
      requires SameRegistration(store.data.logFeeds[key], feed)
      requires !store.capped ==> FeedCovered(feed, RowsOf(recorded, key) + RowSet(rows), taken)
      modifies this, store, TimeMaps(store.data), feed.fingerprints
      ensures Valid() && clock == a.second && Grown(old(recorded), recorded, key, RowSet(rows))
      ensures store.data == WithFeed(old(store.data), key, old(store.data).logFeeds[key].(
                                       fingerprints := feed.fingerprints, lastCheckedAt := a.receivedAt,
                                           status := "ACTIVE"))
      ensures Remains(old(feed.fingerprints.entries), feed.fingerprints.entries, a.second, store.capped)
      ensures Aging(old(Known()[key := feed.fingerprints.entries]), Known(), a.second, a.second, store.capped)
      ensures old(store.capped) ==> store.capped
      ensures store.capped ==> old(store.capped) || old(|feed.fingerprints.entries|) > FINGERPRINT_CAP
    {
      hide Covers, Remains, Settled, FeedDefaults, Grown, RowSet, Aging, Known;
      StoredFeed(key);
      KeepsDefaults(store.data.logFeeds[key], feed.fingerprints, a.receivedAt, "ACTIVE");
      GrowsBy(recorded, key, RowSet(rows));
      Record(key, (current: LogFeed) =>
               current.(fingerprints := feed.fingerprints, lastCheckedAt := a.receivedAt, status := "ACTIVE"),
             RowsOf(recorded, key) + RowSet(rows), taken, a.first, a.second);
    }

    /** One refresh of a feed taken from a snapshot. A failed query or a failed send records nothing,
        and a failed send leaves the store and every stored map as they were although the
        snapshot's map has been written to; a delivered message records exactly its rows. With a
        window that cannot redeliver, and as long as no cap took effect, no row is put in a message
        twice. */
    method RefreshLogFeed(key: string, feed: LogFeed, a: Answer, ghost taken: Instant) returns (v: Visit)
      requires Valid() && PendingFeed(key, feed, taken)
      requires a.After(clock) && a.Answers(feed.since, config.delay) && taken <= a.queriedAt
      modifies this, store, TimeMaps(store.data), feed.fingerprints
      ensures Valid() && clock <= a.second && v.key == key
      ensures Visited(config, old(Now()), Now(), feed, old(feed.fingerprints.entries), a, v)
      ensures v.delivered ==>
                Remains(MarkedBy(config.For(feed), old(feed.fingerprints.entries), v.rows, a.receivedAt),
                        feed.fingerprints.entries, a.second, store.capped)
      ensures a.rows.Some? && !v.delivered ==> Untouched()
    {
      hide Covers, Remains, FreshOf, MarkedBy, Settled, SafeWindow, FeedDefaults, Grown, RowSet, FeedCovered, Valid,
          Aging, Known, WithFeed, RowsOf;
      ghost var before, known := Now(), feed.fingerprints.entries;
      hide Visited;
      if a.rows.None? {
        FailQuery(key, a);
        FailedVisit(config, before, Now(), key, feed, known, a);
        return Visit(key, [], |feed.fingerprints.entries|, false);
      }
      var rows := Select(feed, a, RowsOf(recorded, key), taken);
      var marked := |feed.fingerprints.entries|;
      if |rows| > 0 && !a.delivered {
        UnsentVisit(config, before, key, feed, known, a, rows);
        return Visit(key, rows, marked, false);
      }
      Succeed(key, feed, rows, a, taken);
      DeliveredVisit(config, before, Now(), key, feed, known, a, rows);
      return Visit(key, rows, marked, true);
    }

    /** A deep copy of the store, whose pruning keeps every recorded row covered. */
    method TakeSnapshot(now: Instant) returns (snapshot: Data)
      requires Valid() && clock <= now
      modifies this, store, TimeMaps(store.data)
      ensures Valid() && clock == now && recorded == old(recorded) && store.data == old(store.data)
      ensures DeepCopy(store.data, snapshot)
      ensures forall m: TimedMap?<Instant> | m in TimeMaps(snapshot) && m != null :: fresh(m)
      ensures forall m: TimedMap?<Instant> | m in TimeMaps(store.data) && m != null ::
                Remains(old(m.entries), m.entries, now, store.capped)
      ensures Aging(old(Known()), Known(), now, now, store.capped)
      ensures store.capped == old(store.capped)
    {
      hide Covers, Remains, HasDefaults, MapsWithin, FeedDefaults, DeepCopy;
      ghost var known := Known();
      KnownContents();
      snapshot := store.Snapshot(now);
      NormalIsSmall(store.data, now);
      if !store.capped {
        forall key | key in recorded ensures FeedCovered(store.data.logFeeds[key], recorded[key], now) {
          var feed := store.data.logFeeds[key];
          SettledFeeds(store.data, key);
          CoversRemains(config.For(feed), config.delay, recorded[key], old(feed.fingerprints.entries),
                        feed.fingerprints.entries, clock, now);
        }
      }
      SettledMaps(store.data);
      hide Known, Aging;
      AgedNow(known, now);
      clock := now;
    }

    /** The feeds of a deep copy are all pending. */
    lemma CopiesArePending(snapshot: Data, key: string)
      requires Valid() && DeepCopy(store.data, snapshot) && key in snapshot.logFeeds
      requires snapshot.logFeeds[key].fingerprints !in TimeMaps(store.data)
      ensures PendingFeed(key, snapshot.logFeeds[key], clock)
      ensures snapshot.logFeeds[key].fingerprints in TimeMaps(snapshot)
    {
      hide Covers, HasDefaults, FeedDefaults;
      StoredFeed(key);
      PositiveLimit(store.data.logFeeds[key]);
      assert snapshot.logFeeds[key].fingerprints in FeedMaps(snapshot);
    }

    /** The feeds of a snapshot, as pending copies of the stored ones. */
    method PendingFeeds(now: Instant) returns (feeds: map<string, LogFeed>)
      requires Valid() && clock <= now
      modifies this, store, TimeMaps(store.data)
      ensures Valid() && clock == now && recorded == old(recorded) && store.data == old(store.data)
      ensures feeds.Keys == store.data.logFeeds.Keys && store.capped == old(store.capped)
      ensures forall key | key in feeds :: PendingFeed(key, feeds[key], now) && fresh(feeds[key].fingerprints)
      ensures CopiesOf(store.data.logFeeds, feeds)
      ensures forall key | key in feeds ::
                && store.data.logFeeds[key].fingerprints != null
                && feeds[key].fingerprints != null
                && store.data.logFeeds[key].fingerprints.entries == feeds[key].fingerprints.entries
      ensures Aging(old(Known()), Known(), now, now, store.capped)
      ensures forall key, key' | key in feeds && key' in feeds && key != key' ::
                feeds[key].fingerprints != feeds[key'].fingerprints
    {
      hide Covers, HasDefaults, FeedCovered, Remains, FeedDefaults;
      var snapshot := TakeSnapshot(now);
      feeds := snapshot.logFeeds;
      forall key | key in feeds
        ensures PendingFeed(key, feeds[key], now) && fresh(feeds[key].fingerprints)
        ensures store.data.logFeeds[key].fingerprints in TimeMaps(store.data)
      {
        SettledFeeds(store.data, key);
        assert feeds[key].fingerprints in FeedMaps(snapshot) && feeds[key].fingerprints in TimeMaps(snapshot);
        CopiesArePending(snapshot, key);
      }
    }

    /** The feeds of `left` are pending, with maps as in `copies`. */
    ghost predicate AllPending(left: set<string>, feeds: map<string, LogFeed>, copies: map<string, Entries>,
                               now: Instant)
      reads this, store, set key | key in feeds :: feeds[key].fingerprints
    {
      forall key | key in left ::
        && key in feeds && key in copies && PendingFeed(key, feeds[key], now)
        && feeds[key].fingerprints.entries == copies[key]
    }

    /** Refreshes one pending feed; the feeds still pending stay so. */
    method VisitFeed(key: string, feeds: map<string, LogFeed>, a: Answer, now: Instant,
                     ghost left: set<string>, ghost copies: map<string, Entries>)
      returns (v: Visit)
      requires key in feeds && key in copies && key !in left && left <= feeds.Keys
      requires Valid() && a.After(clock) && now <= a.queriedAt
      requires a.Answers(feeds[key].since, config.delay)
      requires AllPending(left + {key}, feeds, copies, now)
      requires forall k | k in left :: feeds[k].fingerprints != feeds[key].fingerprints
      modifies this, store, TimeMaps(store.data), feeds[key].fingerprints
      ensures Valid() && clock <= a.second && v.key == key
      ensures AllPending(left, feeds, copies, now)
      ensures TimeMaps(store.data) <= old(TimeMaps(store.data)) + {feeds[key].fingerprints}
      ensures Visited(config, old(Now()), Now(), feeds[key], copies[key], a, v)
    {
      hide Covers, Remains, Settled, Refreshed, WithFeed, MarkedBy, FreshOf, VisitOf, Grown, RowSet, SafeWindow,
          TimeMaps, Valid,
        Aging, Known;
      assert key in left + {key};
      ghost var data0, recorded0 := store.data, recorded;
      v := RefreshLogFeed(key, feeds[key], a, now);
      RefreshKeepsTheRest(data0, key, feeds[key], a, v.delivered);
      OthersKept(recorded0, recorded, key, if v.delivered then RowSet(v.rows) else {});
      assert forall k | k in left :: k in left + {key};
    }

    /** The body of the round's loop for a feed that is due. */
    method VisitDue(r: Round, key: string, feeds: map<string, LogFeed>, visits: seq<Visit>, ghost before: Books,
                    ghost copies: map<string, Entries>, ghost left: set<string>)
      returns (v: Visit)
      requires r.Ordered() && r.AnswersAll(before.data.logFeeds, config.delay) && CopiesOf(before.data.logFeeds, feeds)
      requires key in feeds && key in copies && key !in left && left <= feeds.Keys
      requires Valid() && clock <= r.time(|visits|) && |visits| < r.Budget() && Due(feeds[key], r.time(0))
      requires AllPending(left + {key}, feeds, copies, r.time(0))
      requires forall k | k in left :: feeds[k].fingerprints != feeds[key].fingerprints
      requires RoundSoFar(config, r, before, Now(), copies, visits, left + {key})
      modifies this, store, TimeMaps(store.data), feeds[key].fingerprints
      ensures Valid() && clock <= r.time(|visits + [v]|)
      ensures AllPending(left, feeds, copies, r.time(0))
      ensures TimeMaps(store.data) <= old(TimeMaps(store.data)) + {feeds[key].fingerprints}
      ensures RoundSoFar(config, r, before, Now(), copies, visits + [v], left)
    {
      hide Valid, FeedCovered, Due, TimeMaps, PendingFeed, AllPending, CopiesOf, RoundSoFar, Visited, Now,
          Answer.Answers;
      var a := r.answer(|visits|, key);
      CopyIsAlike(before.data.logFeeds, feeds, key, r.time(0));
      r.TimePasses(0, |visits|);
      ghost var between := Now();
      v := VisitFeed(key, feeds, a, r.time(0), left, copies);
      RoundGoesOn(config, r, before, between, Now(), copies, visits, v, left, feeds[key]);
    }

    /** The copies a round works on, with the contents of their maps, which the stored ones share. */
    method StartRound(now: Instant) returns (feeds: map<string, LogFeed>, ghost copies: map<string, Entries>)
      requires Valid() && clock <= now
      modifies this, store, TimeMaps(store.data)
      ensures Valid() && clock == now && Now() == old(Now()).(known := copies)
      ensures Aging(old(Known()), copies, now, now, old(store.capped))
      ensures copies.Keys == feeds.Keys == store.data.logFeeds.Keys && CopiesOf(store.data.logFeeds, feeds)
      ensures AllPending(feeds.Keys, feeds, copies, now)
      ensures forall key | key in feeds :: fresh(feeds[key].fingerprints)
      ensures forall key, key' | key in feeds && key' in feeds && key != key' ::
                feeds[key].fingerprints != feeds[key'].fingerprints
    {
      hide Valid, Remains, PendingFeed, AllPending, TimeMaps, Aging, Known;
      feeds := PendingFeeds(now);
      assert forall key | key in feeds :: feeds[key].fingerprints != null by { AllHaveMaps(feeds, now); }
      copies := map key | key in feeds :: feeds[key].fingerprints.entries;
      KnownContents();
      AllPendingAtFirst(feeds, copies, now);
    }

    lemma AllHaveMaps(feeds: map<string, LogFeed>, now: Instant)
      requires forall key | key in feeds :: PendingFeed(key, feeds[key], now)
      ensures forall key | key in feeds :: feeds[key].fingerprints != null
    {
    }

    /** One round over a snapshot: due feeds are refreshed, in any order, while the query budget
        lasts. */
    method RefreshDueLogFeeds(r: Round) returns (visits: seq<Visit>, ghost copies: map<string, Entries>)
      requires Valid() && clock <= r.time(0) && r.Ordered() && r.AnswersAll(store.data.logFeeds, config.delay)
      modifies this, store, TimeMaps(store.data)
      ensures Valid() && clock <= r.time(r.Budget())
      ensures RoundSoFar(config, r, old(Now()), Now(), copies, visits, {})
      ensures |visits| <= if r.maxQueries <= 0 then 6 else r.maxQueries
      ensures forall key | key in old(store.data.logFeeds) ::
                var feed := old(store.data.logFeeds)[key];
                var ready := && !feed.disabled && feed.service in {"gateway", "auth", "report", "post"}
                             && (|| feed.lastCheckedAt == 0
                                 || r.time(0) >= feed.lastCheckedAt +
                                      (if feed.intervalSec <= 0 then 300 else feed.intervalSec) * SECOND);
                && (key in VisitKeys(visits) ==> ready)
                && (ready && |visits| < (if r.maxQueries <= 0 then 6 else r.maxQueries) ==> key in VisitKeys(visits))
      ensures forall m | m in TimeMaps(store.data) :: m in old(TimeMaps(store.data)) || fresh(m)
    {
      hide Valid, Remains, Due, TimeMaps, PendingFeed, AllPending, CopiesOf, RoundSoFar, Round.Ordered,
        Round.AnswersAll, FeedDefaults, HasDefaults, Settled, Known, Aging, VisitKeys;
      visits := [];
      ghost var before := Now();
      var feeds;
      feeds, copies := StartRound(r.time(0));
      var left := feeds.Keys;
      ghost var maps := set key | key in feeds :: feeds[key].fingerprints;
      NoVisits(config, r, before, copies);
      while left != {}
        invariant left <= feeds.Keys
        invariant Valid() && clock <= r.time(|visits|) && |visits| <= r.Budget()
        invariant AllPending(left, feeds, copies, r.time(0))
        invariant TimeMaps(store.data) <= old(TimeMaps(store.data)) + maps
        invariant RoundSoFar(config, r, before, Now(), copies, visits, left)
        decreases left
      {
        var key :| key in left;
        FewerPending(left, key, feeds, copies, r.time(0));
        left := left - {key};
        if !Due(feeds[key], r.time(0)) || |visits| >= r.Budget() {
          PassedOver(config, r, before, Now(), copies, visits, left, key, feeds);
          continue;
        }
        var v := VisitDue(r, key, feeds, visits, before, copies, left);
        visits := visits + [v];
      }
      r.TimePasses(|visits|, r.Budget());
      RoundVisitsWhatIsDue(config, r, before, Now(), copies, visits);
    }

    /** Round after round: each is the round above, and what is known of runs holds of all their visits. */
    method LogFeedLoop(rounds: seq<Round>)
      returns (visited: seq<seq<Visit>>, ghost states: seq<Books>, ghost copies: seq<map<string, Entries>>)
      requires Valid() && InOrder(rounds, clock) && AllAnswered(rounds, store.data.logFeeds, config.delay)
      modifies this, store, TimeMaps(store.data)
      ensures Valid() && RunOf(config, rounds, states, copies, visited)
      ensures states[0] == old(Now()) && states[|rounds|] == Now()
      ensures RunSoFar(config, old(Now()), Now(), Joined(visited))
    {
      hide Valid, RunSoFar, RoundSoFar, RunOf, TimeMaps, Remains, SameRegistrations, Round.AnswersAll, Round.Ordered,
          Known;
      visited, states, copies := [], [Now()], [];
      NoRoundRun(config, Now());
      for n := 0 to |rounds|
        invariant |states| == n + 1 && |copies| == |visited| == n
        invariant Valid() && RunOf(config, rounds[..n], states, copies, visited)
        invariant states[0] == old(Now()) && states[n] == Now()
        invariant AllAnswered(rounds, store.data.logFeeds, config.delay)
        invariant n < |rounds| ==> clock <= rounds[n].time(0)
        invariant forall m | m in TimeMaps(store.data) :: m in old(TimeMaps(store.data)) || fresh(m)
      {
        ghost var feeds := store.data.logFeeds;
        var visits, copy := RefreshDueLogFeeds(rounds[n]);
        OneMoreRound(config, rounds[..n], states, copies, visited, rounds[n], Now(), copy, visits);
        assert rounds[..n + 1] == rounds[..n] + [rounds[n]];
        RoundRegisters(config, rounds[n], states[n], Now(), copy, visits);
        StillAnswered(rounds, states[n], feeds);
        visited, states, copies := visited + [visits], states + [Now()], copies + [copy];
      }
      assert rounds[..|rounds|] == rounds;
      RunsNeverRepeat(config, rounds, states, copies, visited);
    }

    lemma StillAnswered(rounds: seq<Round>, before: Books, feeds: map<string, LogFeed>)
      requires AllAnswered(rounds, feeds, config.delay) && before.data.logFeeds == feeds
      requires SameRegistrations(feeds, Now().data.logFeeds)
      ensures AllAnswered(rounds, store.data.logFeeds, config.delay)
    {
      AnsweredAlike(rounds, feeds, store.data.logFeeds, config.delay);
    }

    /** Removes the feed of that service and mode, if it was registered; an unknown service is refused. */
    method UnwatchLogFeed(service: string, mode: string, first: Instant, second: Instant)
        returns (existed: Option<bool>)
      requires Valid() && clock <= first <= second
      modifies this, store, TimeMaps(store.data)
      ensures Valid()
      ensures existed.None? <==> NormalizeService(service).None?
      ensures existed.None? ==> Untouched()
      ensures existed.Some? ==>
                var key := NormalizeService(service).value + ":" + ToLower(Trim(mode));
                && existed.value == (key in old(store.data.logFeeds))
                && store.data == old(store.data).(logFeeds := old(store.data).logFeeds - {key})
                && recorded == old(recorded) - {key}
      ensures store.capped == old(store.capped)
    {
      hide Remains, Settled, FeedDefaults, FeedCovered, Valid, NormalizeService, Trim;
      var normalized := NormalizeService(service);
      if normalized.None? { return None; }
      var key := FeedKey(normalized.value, ToLower(Trim(mode)));
      existed := Some(key in store.data.logFeeds);
      OnlyRegistered();
      WithoutFeedIsSettled(store.data, key);
      Apply(key, (d: Data) => d.(logFeeds := d.logFeeds - {key}), first, second);
      Forget(key, second);
    }

    lemma AllPendingAtFirst(feeds: map<string, LogFeed>, copies: map<string, Entries>, now: Instant)
      requires forall key | key in feeds :: PendingFeed(key, feeds[key], now)
      requires copies.Keys == feeds.Keys && forall key | key in feeds ::
                 feeds[key].fingerprints != null && copies[key] == feeds[key].fingerprints.entries
      ensures AllPending(feeds.Keys, feeds, copies, now)
    {
      hide PendingFeed;
    }

    lemma FewerPending(left: set<string>, key: string, feeds: map<string, LogFeed>, copies: map<string, Entries>,
                       now: Instant)
      requires AllPending(left, feeds, copies, now) && key in left
      ensures AllPending(left - {key}, feeds, copies, now) && left - {key} + {key} == left && key in copies
    {
      hide PendingFeed;
    }
  }

  lemma KeepsDefaults(feed: LogFeed, fingerprints: TimedMap?<Instant>, now: Instant, status: string)
    requires FeedDefaults(feed) == feed
    ensures var checked := feed.(lastCheckedAt := now, status := status); FeedDefaults(checked) == checked
    ensures var marked := feed.(fingerprints := fingerprints, lastCheckedAt := now,
                                status := status); FeedDefaults(marked) == marked
  {
  }

  lemma BlankSinceIsUnsupported(since: string)
    requires ParseSince(since).Some?
    ensures since != ""
  {
  }

  lemma NothingToCover(fp: Row -> string, delay: nat, entries: Entries, clock: Instant)
    ensures Covers(fp, delay, {}, entries, clock)
  {
  }

  lemma EarlierCover(fp: Row -> string, delay: nat, rows: set<Row>, entries: Entries, clock: Instant, now: Instant)
    requires Covers(fp, delay, rows, entries, clock) && clock <= now
    ensures Covers(fp, delay, rows, entries, now)
  {
  }
}

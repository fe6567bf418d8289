/** The monitor bot's state: normalisation, pruning, snapshots and updates.

    The fingerprint maps are heap objects, as in the source, because normalisation prunes them in
    place and because a snapshot is only safe to change if its maps are copies. */
module StateStore {
  import opened Clock
  import opened Sorting
  import opened Wrappers

  // ----- Pruning -----

  const FINGERPRINT_TTL: nat := DAY
  const FINGERPRINT_CAP := 1000
  const AUDIT_TTL: nat := 14 * DAY
  const AUDIT_CAP := 2000

  predicate Expired(at: Instant, ttl: nat, now: Instant) {
    at != 0 && now > at + ttl
  }

  /** The entries within their time to live; the zero time never expires. */
  function Live<V>(m: map<string, V>, at: V -> Instant, ttl: nat, now: Instant): map<string, V> {
    map key | key in m && !Expired(at(m[key]), ttl, now) :: m[key]
  }

  predicate OverCap<V>(m: map<string, V>, at: V -> Instant, ttl: nat, cap: int, now: Instant) {
    cap > 0 && |Live(m, at, ttl, now)| > cap
  }

  /** What pruning may turn a map into: the live entries, or if they are too many exactly `cap` of
      them, none older than a live entry that was dropped. Ties are broken arbitrarily. */
  ghost predicate Pruned<V(!new)>(before: map<string, V>, after: map<string, V>, at: V -> Instant, ttl: nat,
      cap: int, now: Instant) {
    var live := Live(before, at, ttl, now);
    && (forall key | key in after :: key in live && after[key] == live[key])
    && (!OverCap(before, at, ttl, cap, now) ==> after == live)
    && (OverCap(before, at, ttl, cap, now) ==>
          |after| == cap && NewestOf(live, after, at))
  }

  ghost predicate Within<V(!new)>(m: map<string, V>, at: V -> Instant, ttl: nat, cap: int, now: Instant) {
    && (forall key | key in m :: !Expired(at(m[key]), ttl, now))
    && (cap > 0 ==> |m| <= cap)
  }

  lemma PrunedIsWithin<V(!new)>(before: map<string, V>, after: map<string, V>, at: V -> Instant, ttl: nat, cap: int,
                                now: Instant)
    requires Pruned(before, after, at, ttl, cap, now)
    ensures Within(after, at, ttl, cap, now)
  {
  }

  /** Pruning is idempotent at a fixed clock. */
  lemma PruningIsIdempotent<V(!new)>(m: map<string, V>, after: map<string, V>, at: V -> Instant, ttl: nat, cap: int,
                                     now: Instant)
    requires Within(m, at, ttl, cap, now)
    ensures Pruned(m, after, at, ttl, cap, now) <==> after == m
  {
    assert Live(m, at, ttl, now) == m;
  }

  /** A map object, shared by reference. */
  class TimedMap<V(==, !new)> {
    var entries: map<string, V>

    constructor (entries: map<string, V>)
      ensures this.entries == entries
    {
      this.entries := entries;
    }

    method Prune(at: V -> Instant, ttl: nat, cap: int, now: Instant)
      modifies this
      ensures Pruned(old(entries), entries, at, ttl, cap, now)
    {
      if |entries| == 0 { return; }
      var keys := entries.Keys;
      while keys != {}
        invariant keys <= old(entries).Keys
        invariant entries.Keys == set key | key in old(entries)
                    && (key in keys || !Expired(at(old(entries)[key]), ttl, now))
        invariant forall key | key in entries :: entries[key] == old(entries)[key]
        decreases keys
      {
        var key :| key in keys;
        keys := keys - {key};
        if Expired(at(entries[key]), ttl, now) {
          entries := entries - {key};
        }
      }
      assert entries == Live(old(entries), at, ttl, now);
      if cap <= 0 || |entries| <= cap { return; }
      DropOldest(at, cap);
    }

    /** Collects the entries, sorts them by time and deletes from the old end. */
    method DropOldest(at: V -> Instant, cap: int)
      requires 0 < cap < |entries|
      modifies this
      ensures |entries| == cap && NewestOf(old(entries), entries, at)
    {
      var pairs := SortedPairs(at);
      while |pairs| > cap
        invariant cap <= |pairs| == |entries|
        invariant Lists(pairs, entries, at) && SortedBy(pairs, Earlier)
        invariant NewestOf(old(entries), entries, at)
      {
        DropFirst(old(entries), entries, pairs, at);
        entries := entries - {pairs[0].key};
        pairs := pairs[1..];
      }
    }

    method SortedPairs(at: V -> Instant) returns (pairs: seq<Pair>)
      ensures |pairs| == |entries| && Lists(pairs, entries, at) && SortedBy(pairs, Earlier)
    {
      pairs := [];
      var keys := entries.Keys;
      while keys != {}
        invariant keys <= entries.Keys
        invariant |pairs| + |keys| == |entries.Keys|
        invariant Lists(pairs, map key | key in entries && key !in keys :: entries[key], at)
        decreases keys
      {
        var key :| key in keys;
        ghost var listed := map k | k in entries && k !in keys :: entries[k];
        keys := keys - {key};
        ListsAppend(pairs, listed, key, entries[key], at);
        assert listed[key := entries[key]] == map k | k in entries && k !in keys :: entries[k];
        pairs := pairs + [Pair(key, at(entries[key]))];
      }
      assert (map key | key in entries && key !in keys :: entries[key]) == entries;
      EarlierIsTotal();
      ghost var unsorted := pairs;
      pairs := Sort(pairs, Earlier);
      ListsPermuted(unsorted, pairs, entries, at);
    }
  }

  datatype Pair = Pair(key: string, at: Instant)

  predicate Earlier(a: Pair, b: Pair) {
    a.at <= b.at
  }

  lemma EarlierIsTotal()
    ensures TotalPreorder(Earlier)
  {
  }

  /** The pairs are the entries of the map, each once. */
  ghost predicate Lists<V>(pairs: seq<Pair>, m: map<string, V>, at: V -> Instant) {
    && (forall p | p in pairs :: p.key in m && p.at == at(m[p.key]))
    && (forall key | key in m :: Pair(key, at(m[key])) in pairs)
    && (forall p :: multiset(pairs)[p] <= 1)
  }

  lemma ListsAppend<V>(pairs: seq<Pair>, m: map<string, V>, key: string, value: V, at: V -> Instant)
    requires Lists(pairs, m, at) && key !in m
    ensures Lists(pairs + [Pair(key, at(value))], m[key := value], at)
  {
    var p := Pair(key, at(value));
    assert p !in pairs;
    assert multiset(pairs)[p] == 0;
    assert multiset(pairs + [p]) == multiset(pairs) + multiset{p};
  }

  lemma ListsTail<V>(pairs: seq<Pair>, m: map<string, V>, at: V -> Instant)
    requires pairs != [] && Lists(pairs, m, at)
    ensures Lists(pairs[1..], m - {pairs[0].key}, at)
  {
    var first, rest := pairs[0], pairs[1..];
    TailMultiset(pairs);
    assert multiset(rest)[first] == 0 && first !in rest;
    forall p | p in rest ensures p.key != first.key {
      assert p in pairs && first in pairs;
    }
    forall key | key in m - {first.key} ensures Pair(key, at(m[key])) in rest {
      assert Pair(key, at(m[key])) in pairs;
    }
  }

  /** `part` keeps entries of `whole` such that nothing it dropped is newer than what it kept. */
  ghost predicate NewestOf<V(!new)>(whole: map<string, V>, part: map<string, V>, at: V -> Instant) {
    && (forall key | key in part :: key in whole && part[key] == whole[key])
    && forall dropped, kept | dropped in whole && dropped !in part && kept in part ::
        at(whole[dropped]) <= at(whole[kept])
  }

  lemma DropFirst<V(!new)>(whole: map<string, V>, part: map<string, V>, pairs: seq<Pair>, at: V -> Instant)
    requires pairs != [] && |pairs| == |part| && Lists(pairs, part, at) && SortedBy(pairs, Earlier)
    requires NewestOf(whole, part, at)
    ensures var first := pairs[0].key;
            && NewestOf(whole, part - {first}, at)
            && Lists(pairs[1..], part - {first}, at) && SortedBy(pairs[1..], Earlier)
            && |part - {first}| == |pairs[1..]|
  {
    var first := pairs[0];
    assert first in pairs;
    forall kept | kept in part ensures first.at <= at(part[kept]) {
      var p := Pair(kept, at(part[kept]));
      assert p in pairs;
      var i :| 0 <= i < |pairs| && pairs[i] == p;
      assert i == 0 || Earlier(pairs[0], pairs[i]);
    }
    ListsTail(pairs, part, at);
    assert (part - {first.key}).Keys == part.Keys - {first.key};
  }

  lemma ListsPermuted<V>(a: seq<Pair>, b: seq<Pair>, m: map<string, V>, at: V -> Instant)
    requires Lists(a, m, at) && multiset(a) == multiset(b)
    ensures Lists(b, m, at) && |a| == |b|
  {
    SameMultisetSameLength(a, b);
  }

  // ----- The stored data -----

  datatype AlertState = AlertState(active: bool, lastSentAt: Instant, resolvedAt: Instant)

  datatype ServiceDashboard = ServiceDashboard(scope: string, service: string, channelID: string, messageID: string,
                                               intervalSec: int, lastUpdatedAt: Instant)

  datatype LogFeed = LogFeed(service: string, mode: string, channelID: string, intervalSec: int, since: string,
                             limit: int,
                             lastCheckedAt: Instant, fingerprints: TimedMap?<Instant>, disabled: bool, status: string)

  /** `None` and `null` stand for nil maps. The recent lists hold opaque entries, newest first. */
  datatype Data = Data(version: int, dashboardChannelID: string, dashboardMessageID: string, dashboardIntervalSec: int,
                       lastDashboardUpdatedAt: Instant, serviceDashboards: Option<map<string, ServiceDashboard>>,
                       lastSent: TimedMap?<Instant>, logFeeds: map<string, LogFeed>,
                       recentAssignmentEvents: seq<string>, recentAuditEvents: seq<string>,
                           recentServiceAlerts: seq<string>)

  const NO_DATA := Data(0, "", "", 0, 0, None, null, map[], [], [], [])
  const RECENT_LIMIT := 20

  function Same(at: Instant): Instant { at }
  function SentAt(a: AlertState): Instant { a.lastSentAt }

  ghost function FeedMaps(data: Data): set<TimedMap?<Instant>> {
    set key | key in data.logFeeds && data.logFeeds[key].fingerprints != null :: data.logFeeds[key].fingerprints
  }

  /** The time maps a value of the data refers to. */
  ghost function TimeMaps(data: Data): set<TimedMap?<Instant>> {
    FeedMaps(data) + if data.lastSent != null then {data.lastSent} else {}
  }

  /** The audit fingerprints are pruned alike, by the time they were sent and with longer bounds. */
  method PruneAudits(audits: TimedMap<AlertState>, now: Instant)
    modifies audits
    ensures Pruned(old(audits.entries), audits.entries, SentAt, AUDIT_TTL, AUDIT_CAP, now)
    ensures Within(audits.entries, SentAt, AUDIT_TTL, AUDIT_CAP, now)
  {
    audits.Prune(SentAt, AUDIT_TTL, AUDIT_CAP, now);
    PrunedIsWithin(old(audits.entries), audits.entries, SentAt, AUDIT_TTL, AUDIT_CAP, now);
  }

  // ----- Defaults and migration -----

  function Migrate(data: Data): Data {
    var dashboards := if data.serviceDashboards.Some? then data.serviceDashboards.value else map[];
    data.(serviceDashboards := Some(
      if data.dashboardChannelID != "" || data.dashboardMessageID != "" then
        dashboards["all" := ServiceDashboard("all", "", data.dashboardChannelID, data.dashboardMessageID,
                                             if data.dashboardIntervalSec <= 0 then 300 else data.dashboardIntervalSec,
                                             data.lastDashboardUpdatedAt)]
      else dashboards))
  }

  const SERVICE_PREFIX := "service:"

  function DashboardDefaults(key: string, d: ServiceDashboard): ServiceDashboard {
    var scoped := if d.scope == "" then d.(scope := if key == "all" then "all" else "service") else d;
    if scoped.scope == "service" && scoped.service == "" && |key| > |SERVICE_PREFIX| && SERVICE_PREFIX <= key
    then scoped.(service := key[|SERVICE_PREFIX|..])
    else scoped
  }

  function FeedDefaults(feed: LogFeed): LogFeed {
    feed.(intervalSec := if feed.intervalSec <= 0 then 300 else feed.intervalSec,
          since := if feed.since == "" then "30m" else feed.since,
          limit := if feed.limit <= 0 then 10 else feed.limit)
  }

  /** The head of a list that is newest first. */
  function Newest<T>(s: seq<T>): (r: seq<T>)
    ensures r <= s && |r| == if |s| >= 20 then 20 else |s|
  {
    if |s| > RECENT_LIMIT then s[..RECENT_LIMIT] else s
  }

  predicate NeedsMigration(data: Data) {
    data.version < 2 || (data.serviceDashboards.None?
                         && (data.dashboardChannelID != "" || data.dashboardMessageID != ""))
  }

  /** Everything normalisation does outside the time maps. */
  function Defaulted(data: Data): Data {
    var d := if NeedsMigration(data) then Migrate(data) else data;
    var dashboards := if d.serviceDashboards.Some? then d.serviceDashboards.value else map[];
    d.(version := 2,
       serviceDashboards := Some(map key | key in dashboards :: DashboardDefaults(key, dashboards[key])),
       logFeeds := map key | key in d.logFeeds :: FeedDefaults(d.logFeeds[key]),
       recentAssignmentEvents := Newest(d.recentAssignmentEvents),
       recentAuditEvents := Newest(d.recentAuditEvents),
       recentServiceAlerts := Newest(d.recentServiceAlerts))
  }

  /** No default is missing. */
  ghost predicate HasDefaults(data: Data) {
    && data.version == 2 && data.serviceDashboards.Some?
    && (forall key | key in data.serviceDashboards.value ::
          DashboardDefaults(key, data.serviceDashboards.value[key]) == data.serviceDashboards.value[key])
    && (forall key | key in data.logFeeds :: FeedDefaults(data.logFeeds[key]) == data.logFeeds[key])
    && |data.recentAssignmentEvents| <= RECENT_LIMIT && |data.recentAuditEvents| <= RECENT_LIMIT
    && |data.recentServiceAlerts| <= RECENT_LIMIT
  }

  /** Normalising fills in every default, and changes nothing that has them all. */
  lemma DefaultsAreIdempotent(data: Data)
    ensures HasDefaults(Defaulted(data))
    ensures HasDefaults(data) ==> Defaulted(data) == data
    ensures Defaulted(Defaulted(data)) == Defaulted(data)
  {
    DefaultsComplete(data);
    DefaultsKept(Defaulted(data));
    DefaultsKept(data);
  }

  /** What a usable value is replaced by: nothing; and an unusable one, in a feed. */
  lemma FeedDefaultsMeaning(feed: LogFeed)
    ensures var r := FeedDefaults(feed);
            && r == feed.(intervalSec := r.intervalSec, since := r.since, limit := r.limit)
            && (if feed.intervalSec > 0 then r.intervalSec == feed.intervalSec else r.intervalSec == 300)
            && (if feed.since != "" then r.since == feed.since else r.since == "30m")
            && (if feed.limit > 0 then r.limit == feed.limit else r.limit == 10)
  {
  }

  /** A watch without a scope gets that of its key, and one of a service its name from the key. */
  lemma DashboardDefaultsMeaning(key: string, d: ServiceDashboard)
    ensures var r := DashboardDefaults(key, d);
            && r == d.(scope := r.scope, service := r.service)
            && r.scope == (if d.scope != "" then d.scope else if key == "all" then "all" else "service")
            && (d.service != "" || r.scope != "service" ==> r.service == d.service)
            && (forall service | service != "" && key == "service:" + service && d.service == ""
                && r.scope == "service" ::
                  r.service == service)
  {
    forall service | service != "" && key == "service:" + service ensures key[|SERVICE_PREFIX|..] == service {
    }
  }

  /** The watch kept in the fields of the first version becomes the one of all services: where it still has
      that version, or has no watches at all. Nothing else is touched but feeds, watches and lists. */
  lemma DefaultsMeaning(data: Data)
    ensures var r := Defaulted(data);
            var was := if data.serviceDashboards.Some? then data.serviceDashboards.value else map[];
            var legacy := && (data.dashboardChannelID != "" || data.dashboardMessageID != "")
                          && (data.version < 2 || data.serviceDashboards.None?);
            && r.version == 2 && r.serviceDashboards.Some?
            && r == data.(version := 2, serviceDashboards := r.serviceDashboards, logFeeds := r.logFeeds,
                          recentAssignmentEvents := r.recentAssignmentEvents,
                          recentAuditEvents := r.recentAuditEvents, recentServiceAlerts := r.recentServiceAlerts)
            && r.serviceDashboards.value.Keys == was.Keys + (if legacy then {"all"} else {})
            && (legacy ==>
                  var all := r.serviceDashboards.value["all"];
                  && all.scope == "all" && all.service == "" && all.channelID == data.dashboardChannelID
                  && all.messageID == data.dashboardMessageID && all.lastUpdatedAt == data.lastDashboardUpdatedAt
                  && all.intervalSec == if data.dashboardIntervalSec > 0 then data.dashboardIntervalSec else 300)
            && (forall key | key in was && !(legacy && key == "all") ::
                  r.serviceDashboards.value[key] == DashboardDefaults(key, was[key]))
            && r.logFeeds.Keys == data.logFeeds.Keys
            && (forall key | key in data.logFeeds :: r.logFeeds[key] == FeedDefaults(data.logFeeds[key]))
            && r.recentAssignmentEvents == Newest(data.recentAssignmentEvents)
            && r.recentAuditEvents == Newest(data.recentAuditEvents)
            && r.recentServiceAlerts == Newest(data.recentServiceAlerts)
  {
    hide FeedDefaults, Newest;
  }

  lemma DefaultsComplete(data: Data)
    ensures HasDefaults(Defaulted(data))
  {
    var once := Defaulted(data);
    forall key | key in once.serviceDashboards.value
      ensures DashboardDefaults(key, once.serviceDashboards.value[key]) == once.serviceDashboards.value[key]
    {
      DashboardDefaultsMeaning(key, once.serviceDashboards.value[key]);
    }
  }

  lemma DefaultsKept(data: Data)
    ensures HasDefaults(data) ==> Defaulted(data) == data
  {
    hide DashboardDefaults, FeedDefaults;
    if HasDefaults(data) {
      var dashboards := data.serviceDashboards.value;
      assert (map key | key in dashboards :: DashboardDefaults(key, dashboards[key])) == dashboards;
      assert (map key | key in data.logFeeds :: FeedDefaults(data.logFeeds[key])) == data.logFeeds;
    }
  }

  lemma DefaultsKeepMaps(data: Data)
    ensures FeedMaps(Defaulted(data)) == FeedMaps(data)
    ensures Defaulted(data).lastSent == data.lastSent
    ensures TimeMaps(Defaulted(data)) == TimeMaps(data)
  {
    hide DashboardDefaults;
    var once := Defaulted(data);
    assert once.logFeeds.Keys == data.logFeeds.Keys;
    forall key | key in data.logFeeds ensures once.logFeeds[key].fingerprints == data.logFeeds[key].fingerprints {
    }
  }

  /** Removing a dashboard watch; the all-services watch also leaves the legacy fields. */
  function Unwatch(data: Data, key: string): Data
    requires data.serviceDashboards.Some?
  {
    var removed := data.(serviceDashboards := Some(data.serviceDashboards.value - {key}));
    if key == "all" then removed.(dashboardChannelID := "", dashboardMessageID := "", dashboardIntervalSec := 0)
        else removed
  }

  /** The data as it is read back from its file, where an empty watch map is omitted. */
  function Reread(data: Data): Data {
    if data.serviceDashboards == Some(map[]) then data.(serviceDashboards := None) else data
  }

  /** A restart brings back no removed watch and loses no other one, except that a last service watch that
      is removed while the legacy fields are filled leaves an all-services watch; removing the all-services watch
      empties them. */
  lemma UnwatchSurvivesRestart(data: Data, key: string)
    requires HasDefaults(data)
    ensures var left := data.serviceDashboards.value - {key};
            && (Defaulted(Reread(Unwatch(data, key))).serviceDashboards.value == left <==>
                key == "all" || left != map[] || (data.dashboardChannelID == "" && data.dashboardMessageID == ""))
            && (key == "all" ==> Unwatch(data, key) == data.(serviceDashboards := Some(left), dashboardChannelID := "",
                                                             dashboardMessageID := "", dashboardIntervalSec := 0))
            && (key != "all" ==> Unwatch(data, key) == data.(serviceDashboards := Some(left)))
  {
    var left := data.serviceDashboards.value - {key};
    assert (map k | k in left :: DashboardDefaults(k, left[k])) == left;
    if key != "all" && left == map[] && (data.dashboardChannelID != "" || data.dashboardMessageID != "") {
      assert "all" in Defaulted(Reread(Unwatch(data, key))).serviceDashboards.value;
    }
  }

  /** The data with every nil map made and every default in place. */
  ghost predicate Settled(data: Data) {
    && HasDefaults(data)
    && data.lastSent != null
    && forall key | key in data.logFeeds :: data.logFeeds[key].fingerprints != null
  }

  /** The store invariant: settled, feeds usable, lists and maps bounded. */
  ghost predicate Normal(data: Data, now: Instant)
    reads TimeMaps(data)
  {
    && Settled(data)
    && |data.recentAssignmentEvents| <= RECENT_LIMIT && |data.recentAuditEvents| <= RECENT_LIMIT
    && |data.recentServiceAlerts| <= RECENT_LIMIT
    && (forall key | key in data.logFeeds ::
          data.logFeeds[key].intervalSec > 0 && data.logFeeds[key].limit > 0 && data.logFeeds[key].since != "")
    && MapsWithin(data, now)
  }

  ghost predicate MapsWithin(data: Data, now: Instant)
    reads TimeMaps(data)
  {
    forall m: TimedMap?<Instant> | m in TimeMaps(data) && m != null ::
      Within(m.entries, Same, FINGERPRINT_TTL, FINGERPRINT_CAP, now)
  }

  /** The same data up to the map objects, which are only replaced where they were nil. */
  ghost predicate SameButMadeMaps(from: Data, to: Data) {
    && to == from.(logFeeds := to.logFeeds, lastSent := to.lastSent)
    && to.logFeeds.Keys == from.logFeeds.Keys
    && (forall key | key in to.logFeeds :: FeedMade(from.logFeeds[key], to.logFeeds[key]))
    && to.lastSent != null && (from.lastSent != null ==> to.lastSent == from.lastSent)
  }

  lemma MadeMapsSettle(from: Data, to: Data)
    requires SameButMadeMaps(Defaulted(from), to)
    ensures Settled(to)
    ensures Settled(from) ==> to == from
  {
    hide Defaulted, DashboardDefaults;
    DefaultsAreIdempotent(from);
    if Settled(from) {
      assert to.logFeeds == from.logFeeds;
    }
  }

  lemma SettledIsUsable(data: Data, now: Instant)
    requires Settled(data) && MapsWithin(data, now)
    ensures Normal(data, now)
  {
    forall key | key in data.logFeeds
      ensures data.logFeeds[key].intervalSec > 0 && data.logFeeds[key].limit > 0 && data.logFeeds[key].since != ""
    {
      FeedDefaultsMeaning(data.logFeeds[key]);
      assert FeedDefaults(data.logFeeds[key]) == data.logFeeds[key];
    }
  }

  /** Fills in the defaults, makes the nil maps and prunes every map the data refers to. */
  method Normalize(data: Data, now: Instant) returns (r: Data)
    modifies TimeMaps(data)
    ensures SameButMadeMaps(Defaulted(data), r) && Normal(r, now)
    ensures forall m: TimedMap?<Instant> | m in TimeMaps(data) && m != null ::
              Pruned(old(m.entries), m.entries, Same, FINGERPRINT_TTL, FINGERPRINT_CAP, now)
    ensures forall m: TimedMap?<Instant> | m in TimeMaps(r) && m != null ::
              m in TimeMaps(data) || (fresh(m) && m.entries == map[])
  {
    hide Defaulted, HasDefaults, Pruned, Within, Normal;
    DefaultsKeepMaps(data);
    r := MakeMaps(Defaulted(data));
    MadeMapsSettle(data, r);
    PruneMaps(r, now);
    EmptyStaysEmpty(now);
    SettledIsUsable(r, now);
  }

  lemma EmptyStaysEmpty(now: Instant)
    ensures forall after: map<string, Instant> ::
              Pruned<Instant>(map[], after, Same, FINGERPRINT_TTL, FINGERPRINT_CAP, now) ==> after == map[]
  {
    assert Live<Instant>(map[], Same, FINGERPRINT_TTL, now) == map[];
  }

  method MakeMaps(data: Data) returns (r: Data)
    ensures SameButMadeMaps(data, r)
    ensures forall m: TimedMap?<Instant> | m in TimeMaps(r) && m != null ::
              m in TimeMaps(data) || (fresh(m) && m.entries == map[])
    ensures TimeMaps(data) <= TimeMaps(r)
  {
    r := data;
    var left := r.logFeeds.Keys;
    while left != {}
      invariant left <= data.logFeeds.Keys == r.logFeeds.Keys
      invariant r == data.(logFeeds := r.logFeeds)
      invariant forall key | key in left :: r.logFeeds[key] == data.logFeeds[key]
      invariant forall key | key in data.logFeeds && key !in left ::
                  FeedMade(data.logFeeds[key], r.logFeeds[key]) && EmptyIfMade(data.logFeeds[key], r.logFeeds[key])
      decreases left
    {
      var key :| key in left;
      left := left - {key};
      if r.logFeeds[key].fingerprints == null {
        var made := new TimedMap<Instant>(map[]);
        r := r.(logFeeds := r.logFeeds[key := r.logFeeds[key].(fingerprints := made)]);
      }
    }
    if r.lastSent == null {
      var made := new TimedMap<Instant>(map[]);
      r := r.(lastSent := made);
    }
  }

  method PruneMaps(data: Data, now: Instant)
    requires data.lastSent != null
    requires forall key | key in data.logFeeds :: data.logFeeds[key].fingerprints != null
    modifies TimeMaps(data)
    ensures forall m: TimedMap?<Instant> | m in TimeMaps(data) && m != null ::
              Pruned(old(m.entries), m.entries, Same, FINGERPRINT_TTL, FINGERPRINT_CAP, now)
    ensures MapsWithin(data, now)
  {
    hide Pruned, Within;
    ghost var pruned: set<TimedMap?<Instant>> := {};
    var left := data.logFeeds.Keys;
    while left != {}
      invariant left <= data.logFeeds.Keys
      invariant forall key | key in data.logFeeds && key !in left :: data.logFeeds[key].fingerprints in pruned
      invariant PrunedExactly(data, pruned, now)
      decreases left
    {
      var key :| key in left;
      left := left - {key};
      var m := data.logFeeds[key].fingerprints;
      assert m in FeedMaps(data);
      PruneOnce(old(m.entries), m, now, m in pruned);
      pruned := pruned + {m};
    }
    PruneOnce(old(data.lastSent.entries), data.lastSent, now, data.lastSent in pruned);
    pruned := pruned + {data.lastSent};
    assert PrunedExactly(data, pruned, now);
    forall m: TimedMap?<Instant> | m in TimeMaps(data) && m != null
      ensures Within(m.entries, Same, FINGERPRINT_TTL, FINGERPRINT_CAP, now)
    {
      PrunedIsWithin(old(m.entries), m.entries, Same, FINGERPRINT_TTL, FINGERPRINT_CAP, now);
    }
  }

  twostate predicate PrunedExactly(data: Data, new pruned: set<TimedMap?<Instant>>, now: Instant)
    reads TimeMaps(data)
  {
    forall m: TimedMap?<Instant> | m in TimeMaps(data) && m != null ::
      if m in pruned
      then Pruned(old(m.entries), m.entries, Same, FINGERPRINT_TTL, FINGERPRINT_CAP, now)
      else m.entries == old(m.entries)
  }

  twostate predicate EmptyIfMade(from: LogFeed, new to: LogFeed)
    reads to.fingerprints
  {
    from.fingerprints == null ==>
      to.fingerprints != null && fresh(to.fingerprints) && to.fingerprints.entries == map[]
  }

  predicate FeedMade(from: LogFeed, to: LogFeed) {
    && to == from.(fingerprints := to.fingerprints) && to.fingerprints != null
    && (from.fingerprints != null ==> to.fingerprints == from.fingerprints)
  }

  /** Prunes a map that two feeds may share: the second time it is left alone. */
  method PruneOnce(ghost first: map<string, Instant>, m: TimedMap<Instant>, now: Instant, ghost again: bool)
    requires if again then Pruned(first, m.entries, Same, FINGERPRINT_TTL, FINGERPRINT_CAP, now) else m.entries == first
    modifies m
    ensures Pruned(first, m.entries, Same, FINGERPRINT_TTL, FINGERPRINT_CAP, now)
  {
    m.Prune(Same, FINGERPRINT_TTL, FINGERPRINT_CAP, now);
    if again {
      PrunedIsWithin(first, old(m.entries), Same, FINGERPRINT_TTL, FINGERPRINT_CAP, now);
      PruningIsIdempotent(old(m.entries), m.entries, Same, FINGERPRINT_TTL, FINGERPRINT_CAP, now);
    }
  }

  /** Normalising twice at one clock reading changes nothing the second time. */
  method NormalizeTwice(data: Data, now: Instant) returns (once: Data, twice: Data)
    modifies TimeMaps(data)
    ensures twice == once && Normal(once, now)
  {
    hide Defaulted, HasDefaults, Pruned, Within;
    once := Normalize(data, now);
    label Once:
    DefaultsKeepMaps(data);
    twice := Normalize(once, now);
    DefaultsAreIdempotent(once);
    MadeMapsSettle(once, twice);
    forall m: TimedMap?<Instant> | m in TimeMaps(once) && m != null ensures m.entries == old@Once(m.entries) {
      PruningIsIdempotent(old@Once(m.entries), m.entries, Same, FINGERPRINT_TTL, FINGERPRINT_CAP, now);
    }
  }

  // ----- The store -----

  /** What is left of a map after prunings up to `now`: nothing new, no entry older than a live one
      that is gone, and no more entries than the cap. Only a map that was over the cap loses live
      entries, and as long as it lost one that has a time, it has as many as the cap. As long as no
      cap took effect anywhere, exactly the live entries are left. */
  ghost predicate Remains(before: map<string, Instant>, after: map<string, Instant>, now: Instant, capped: bool) {
    var live := Live(before, Same, FINGERPRINT_TTL, now);
    && NewestOf(live, after, Same)
    && |after| <= FINGERPRINT_CAP
    && (|before| <= FINGERPRINT_CAP || !capped ==> after == live)
    && ((exists key :: Gone(live, after, key)) ==> |after| == FINGERPRINT_CAP)
  }

  /** A live entry with a time that is gone; entries without a time never expire. */
  predicate Gone(live: map<string, Instant>, after: map<string, Instant>, key: string) {
    key in live && key !in after && live[key] != 0
  }

  lemma PruningRemains(before: map<string, Instant>, after: map<string, Instant>, now: Instant, capped: bool)
    requires Pruned(before, after, Same, FINGERPRINT_TTL, FINGERPRINT_CAP, now)
    requires OverCap(before, Same, FINGERPRINT_TTL, FINGERPRINT_CAP, now) ==> capped
    ensures Remains(before, after, now, capped) && |after| <= |before|
  {
    SubmapIsSmaller(after, before);
    SubmapIsSmaller(Live(before, Same, FINGERPRINT_TTL, now), before);
  }

  lemma LiveLater(a: map<string, Instant>, first: Instant, second: Instant)
    requires first <= second
    ensures Live(Live(a, Same, FINGERPRINT_TTL, first), Same, FINGERPRINT_TTL, second) == Live(a, Same,
              FINGERPRINT_TTL, second)
  {
  }

  /** Prunings one after the other leave what the last one would leave on its own. */
  lemma RemainsTwice(a: map<string, Instant>, b: map<string, Instant>, c: map<string, Instant>, first: Instant,
                     second: Instant,
                     capped: bool, capped': bool)
    requires first <= second && (capped ==> capped')
    requires Remains(a, b, first, capped) && Remains(b, c, second, capped')
    ensures Remains(a, c, second, capped')
  {
    LiveLater(a, first, second);
    SubmapIsSmaller(b, a);
    var live := Live(a, Same, FINGERPRINT_TTL, second);
    if key :| Gone(live, c, key) {
      assert key !in b;
      assert Gone(Live(a, Same, FINGERPRINT_TTL, first), b, key);
      assert Live(b, Same, FINGERPRINT_TTL, second) == b;
    }
  }

  /** A full map whose entries are all later than a live time either stays as it is or full. */
  lemma FullStaysFull(b: map<string, Instant>, c: map<string, Instant>, at: Instant, now: Instant, capped: bool)
    requires Remains(b, c, now, capped) && |b| >= FINGERPRINT_CAP
    requires at != 0 && !Expired(at, FINGERPRINT_TTL, now) && forall key | key in b :: at <= b[key]
    ensures |c| == FINGERPRINT_CAP
  {
    assert Live(b, Same, FINGERPRINT_TTL, now) == b;
    if c != b {
      assert exists key :: key in b && key !in c;
      var key :| key in b && key !in c;
      assert Gone(b, c, key);
    }
  }

  lemma SubmapIsSmaller<V>(part: map<string, V>, whole: map<string, V>)
    requires part.Keys <= whole.Keys
    ensures |part| <= |whole|
  {
    assert whole.Keys == part.Keys + (whole.Keys - part.Keys);
    assert |part| == |part.Keys| && |whole| == |whole.Keys|;
  }

  lemma SmallMapsAreNotOverCap(m: map<string, Instant>, now: Instant)
    requires |m| <= FINGERPRINT_CAP
    ensures !OverCap(m, Same, FINGERPRINT_TTL, FINGERPRINT_CAP, now)
  {
    SubmapIsSmaller(Live(m, Same, FINGERPRINT_TTL, now), m);
  }

  ghost predicate SomeOverCap(data: Data, now: Instant)
    reads TimeMaps(data)
  {
    exists m: TimedMap?<Instant> :: m in TimeMaps(data) && m != null
        && OverCap(m.entries, Same, FINGERPRINT_TTL, FINGERPRINT_CAP, now)
  }

  ghost predicate AllSmall(data: Data)
    reads TimeMaps(data)
  {
    forall m: TimedMap?<Instant> | m in TimeMaps(data) && m != null :: |m.entries| <= FINGERPRINT_CAP
  }

  /** The copy agrees with the data in everything but the identity of its maps. */
  ghost predicate DeepCopy(data: Data, copy: Data)
    requires Settled(data)
    reads TimeMaps(data), TimeMaps(copy)
  {
    && copy == data.(logFeeds := copy.logFeeds, lastSent := copy.lastSent)
    && copy.lastSent != null && copy.lastSent.entries == data.lastSent.entries
    && copy.logFeeds.Keys == data.logFeeds.Keys
    && (forall key | key in copy.logFeeds ::
          && copy.logFeeds[key] == data.logFeeds[key].(fingerprints := copy.logFeeds[key].fingerprints)
          && copy.logFeeds[key].fingerprints != null
          && copy.logFeeds[key].fingerprints.entries == data.logFeeds[key].fingerprints.entries)
    && (forall key, key' | key in copy.logFeeds && key' in copy.logFeeds && key != key' ::
          copy.logFeeds[key].fingerprints != copy.logFeeds[key'].fingerprints)
  }

  class Store {
    var data: Data
    /** Whether the cap ever took a live fingerprint. */
    ghost var capped: bool

    ghost predicate Valid()
      reads this
    {
      Settled(data)
    }

    /** Loads what was stored, or the zero data where nothing usable was. */
    constructor (stored: Option<Data>, now: Instant)
      modifies if stored.Some? then TimeMaps(stored.value) else {}
      ensures Valid() && Normal(data, now)
      ensures SameButMadeMaps(Defaulted(if stored.Some? then stored.value else NO_DATA), data)
      ensures forall m: TimedMap?<Instant> | stored.Some? && m in TimeMaps(stored.value) && m != null ::
                Remains(old(m.entries), m.entries, now, capped)
      ensures old(AllSmall(if stored.Some? then stored.value else NO_DATA)) ==> !capped
    {
      data := if stored.Some? then stored.value else NO_DATA;
      capped := false;
      new;
      Renormalize(now);
    }

    /** `s.data = normalize(s.data)`. */
    method Renormalize(now: Instant)
      modifies this, TimeMaps(data)
      ensures Valid() && Normal(data, now)
      ensures SameButMadeMaps(Defaulted(old(data)), data)
      ensures forall m: TimedMap?<Instant> | m in TimeMaps(old(data)) && m != null ::
                Remains(old(m.entries), m.entries, now, capped) && |m.entries| <= |old(m.entries)|
      ensures forall m: TimedMap?<Instant> | m in TimeMaps(data) && m != null ::
                m in TimeMaps(old(data)) || (fresh(m) && m.entries == map[])
      ensures old(AllSmall(data)) ==> capped == old(capped)
      ensures old(capped) ==> capped
    {
      hide Pruned, Remains, Defaulted, HasDefaults, OverCap, SameButMadeMaps;
      ghost var before := data;
      forall m: TimedMap?<Instant> | m in TimeMaps(data) && m != null && |m.entries| <= FINGERPRINT_CAP
        ensures !OverCap(m.entries, Same, FINGERPRINT_TTL, FINGERPRINT_CAP, now)
      {
        SmallMapsAreNotOverCap(m.entries, now);
      }
      capped := capped || SomeOverCap(data, now);
      data := Normalize(data, now);
      forall m: TimedMap?<Instant> | m in TimeMaps(before) && m != null
        ensures Remains(old(m.entries), m.entries, now, capped) && |m.entries| <= |old(m.entries)|
      {
        PruningRemains(old(m.entries), m.entries, now, capped);
      }
    }

    /** Normalising settled data prunes its maps and does nothing else. */
    method Reprune(now: Instant)
      requires Valid()
      modifies this, TimeMaps(data)
      ensures data == old(data) && Normal(data, now)
      ensures forall m: TimedMap?<Instant> | m in TimeMaps(data) && m != null ::
                Remains(old(m.entries), m.entries, now, capped) && |m.entries| <= |old(m.entries)|
      ensures old(AllSmall(data)) ==> capped == old(capped)
      ensures old(capped) ==> capped
    {
      hide Remains, Defaulted, HasDefaults, OverCap, SameButMadeMaps, MapsWithin;
      ghost var before := data;
      Renormalize(now);
      MadeMapsSettle(before, data);
    }

    /** A deep copy: the stored maps are pruned in place, but none of them is handed out. */
    method Snapshot(now: Instant) returns (copy: Data)
      requires Valid()
      modifies this, TimeMaps(data)
      ensures data == old(data) && Normal(data, now)
      ensures forall m: TimedMap?<Instant> | m in TimeMaps(data) && m != null ::
                Remains(old(m.entries), m.entries, now, capped)
      ensures DeepCopy(data, copy)
      ensures forall m: TimedMap?<Instant> | m in TimeMaps(copy) && m != null :: fresh(m)
      ensures old(AllSmall(data)) ==> capped == old(capped)
      ensures old(capped) ==> capped
    {
      hide Remains, HasDefaults, MapsWithin, DeepCopy;
      Reprune(now);
      copy := CloneData(data);
    }

    /** A change that writes into a stored map: the time of a sent alert is put into the map of sent
        alerts itself, wherever else that map is referred to, and the alert heads the recent list. */
    method MarkSent(key: string, alert: string, at: Instant, first: Instant, second: Instant)
      requires Valid() && first <= second
      modifies this, TimeMaps(data)
      ensures Valid() && Normal(data, second)
      ensures data == old(data).(recentServiceAlerts := data.recentServiceAlerts)
      ensures var all := [alert] + old(data).recentServiceAlerts;
              && |data.recentServiceAlerts| == (if |all| >= 20 then 20 else |all|)
              && data.recentServiceAlerts <= all && data.recentServiceAlerts[0] == alert
      ensures WrittenBetween(old(data.lastSent.entries), data.lastSent.entries, key, at, first, second, capped)
      ensures forall m: TimedMap?<Instant> | m in TimeMaps(data) && m != null && m != data.lastSent ::
                Remains(old(m.entries), m.entries, second, capped)
      ensures old(AllSmall(data) && |data.lastSent.entries| < FINGERPRINT_CAP) ==> capped == old(capped)
      ensures old(capped) ==> capped
    {
      hide Remains, Defaulted, HasDefaults, OverCap, SameButMadeMaps, Normal, Newest;
      ghost var before, maps, sent := data, TimeMaps(data), data.lastSent;
      assert forall m: TimedMap?<Instant> | m in maps && m != null :: allocated(m);
      Reprune(first);
      ghost var wasCapped := capped;
      label Pruned:
      data.lastSent.entries := data.lastSent.entries[key := at];
      data := data.(recentServiceAlerts := [alert] + data.recentServiceAlerts);
      label Written:
      assert old(AllSmall(data) && |data.lastSent.entries| < FINGERPRINT_CAP) ==> AllSmall(data);
      Renormalize(second);
      AlertsAreShortened(before, [alert] + before.recentServiceAlerts, data);
      assert TimeMaps(data) == maps && data.lastSent == sent;
      hide *;
      JustWritten(old(sent.entries), old@Pruned(sent.entries), sent.entries, key, at, first, second, wasCapped, capped);
      forall m: TimedMap?<Instant> | m in maps && m != null && m != sent
          ensures Remains(old(m.entries), m.entries, second, capped) {
        RemainsTwice(old(m.entries), old@Written(m.entries), m.entries, first, second, wasCapped, capped);
      }
    }

    /** Any change of the data, between two normalisations. */
    method Update(fn: Data -> Data, first: Instant, second: Instant)
      requires Valid() && first <= second
      requires forall m: TimedMap?<Instant> | m in TimeMaps(fn(data)) && m != null :: allocated(m)
      modifies this, TimeMaps(data), TimeMaps(fn(data))
      ensures Valid() && Normal(data, second)
      ensures SameButMadeMaps(Defaulted(fn(old(data))), data)
      ensures forall m: TimedMap?<Instant> | m in TimeMaps(fn(old(data))) && m != null ::
                Remains(old(m.entries), m.entries, second, capped)
      ensures forall m: TimedMap?<Instant> | m in TimeMaps(data) && m != null ::
                m in TimeMaps(fn(old(data))) || (fresh(m) && m.entries == map[])
      ensures old(AllSmall(data) && AllSmall(fn(data))) ==> capped == old(capped)
      ensures old(capped) ==> capped
    {
      hide Remains, Defaulted, HasDefaults, OverCap, SameButMadeMaps, Normal;
      ghost var before, updated := data, fn(data);
      Reprune(first);
      ghost var wasCapped := capped;
      forall m: TimedMap?<Instant> | m in TimeMaps(updated) && m != null
        ensures Remains(old(m.entries), m.entries, first, wasCapped) || m.entries == old(m.entries)
        ensures |m.entries| <= |old(m.entries)|
      {
        if m !in TimeMaps(before) {
          assert m.entries == old(m.entries);
        }
      }
      data := fn(data);
      label Middle:
      Renormalize(second);
      forall m: TimedMap?<Instant> | m in TimeMaps(updated) && m != null
        ensures Remains(old(m.entries), m.entries, second, capped)
      {
        if old@Middle(m.entries) != old(m.entries) {
          RemainsTwice(old(m.entries), old@Middle(m.entries), m.entries, first, second, wasCapped, capped);
        }
      }
    }
  }

  /** What normalisation does to settled data that got a longer list of alerts. */
  lemma AlertsAreShortened(data: Data, alerts: seq<string>, to: Data)
    requires Settled(data) && SameButMadeMaps(Defaulted(data.(recentServiceAlerts := alerts)), to)
    ensures to == data.(recentServiceAlerts := Newest(alerts))
  {
    hide DashboardDefaults, FeedDefaults;
    var updated, dashboards := data.(recentServiceAlerts := alerts), data.serviceDashboards.value;
    assert (map key | key in dashboards :: DashboardDefaults(key, dashboards[key])) == dashboards;
    assert (map key | key in data.logFeeds :: FeedDefaults(data.logFeeds[key])) == data.logFeeds;
    assert Defaulted(updated) == data.(recentServiceAlerts := Newest(alerts));
    assert to.logFeeds == data.logFeeds;
  }

  /** What is left of a map into which an entry was written between two prunings. */
  ghost predicate WrittenBetween(before: map<string, Instant>, after: map<string, Instant>, key: string, at: Instant,
                                 first: Instant, second: Instant, capped: bool)
  {
    exists between, wasCapped: bool ::
      && (wasCapped ==> capped)
      && Remains(before, between, first, wasCapped) && Remains(between[key := at], after, second, capped)
  }

  lemma JustWritten(before: map<string, Instant>, between: map<string, Instant>, after: map<string, Instant>,
                    key: string, at: Instant, first: Instant, second: Instant, wasCapped: bool, capped: bool)
    requires (wasCapped ==> capped) && Remains(before, between, first, wasCapped)
    requires Remains(between[key := at], after, second, capped)
    ensures WrittenBetween(before, after, key, at, first, second, capped)
  {
    hide Remains;
  }

  /** If no entry is later than the written one, that is what the later pruning would leave of it and
      all the others; as long as no cap took effect it is so for every entry. */
  lemma LatestEntryRemains(before: map<string, Instant>, after: map<string, Instant>, key: string, at: Instant,
                           first: Instant, second: Instant, capped: bool)
    requires first <= second && WrittenBetween(before, after, key, at, first, second, capped)
    requires !capped || forall k | k in before :: before[k] <= at
    ensures Remains(before[key := at], after, second, capped)
  {
    var between, wasCapped: bool :|
      && (wasCapped ==> capped)
      && Remains(before, between, first, wasCapped) && Remains(between[key := at], after, second, capped);
    hide Remains;
    if |before[key := at]| <= FINGERPRINT_CAP || !capped {
      NothingOverlooked(before, between, after, key, at, first, second, wasCapped, capped);
    } else {
      OverlookedAreEarlier(before, between, key, at, first, second, wasCapped);
      StillTheNewest(before[key := at], between[key := at], after, second);
    }
  }

  lemma NothingOverlooked(before: map<string, Instant>, between: map<string, Instant>, after: map<string, Instant>,
                          key: string, at: Instant, first: Instant, second: Instant, wasCapped: bool, capped: bool)
    requires first <= second && (wasCapped ==> capped) && (|before[key := at]| <= FINGERPRINT_CAP || !capped)
    requires Remains(before, between, first, wasCapped) && Remains(between[key := at], after, second, capped)
    ensures Remains(before[key := at], after, second, capped)
  {
    var all, some := before[key := at], between[key := at];
    SubmapIsSmaller(before, all);
    assert between == Live(before, Same, FINGERPRINT_TTL, first);
    SubmapIsSmaller(some, all);
    assert Live(all, Same, FINGERPRINT_TTL, second) == Live(some, Same, FINGERPRINT_TTL, second);
    hide NewestOf;
  }

  /** What the earlier pruning took is no later than anything the written map holds, which is then full. */
  lemma OverlookedAreEarlier(before: map<string, Instant>, between: map<string, Instant>, key: string, at: Instant,
                             first: Instant, second: Instant, capped: bool)
    requires first <= second && Remains(before, between, first, capped) && forall k | k in before :: before[k] <= at
    ensures OnlyEarlierMissing(before[key := at], between[key := at], second)
  {
    var all, some := before[key := at], between[key := at];
    SubmapIsSmaller(between, some);
    forall k | k in Live(all, Same, FINGERPRINT_TTL, second) && k !in some
      ensures (forall kept | kept in some :: all[k] <= some[kept]) && (all[k] != 0 ==> |some| >= FINGERPRINT_CAP)
    {
      assert k in Live(before, Same, FINGERPRINT_TTL, first);
      if all[k] != 0 { assert Gone(Live(before, Same, FINGERPRINT_TTL, first), between, k); }
    }
  }

  /** The map lacks only live entries that are no later than its own, and none with a time unless it is full. */
  ghost predicate OnlyEarlierMissing(all: map<string, Instant>, some: map<string, Instant>, now: Instant) {
    && (forall k | k in some :: k in all && some[k] == all[k])
    && forall k | k in Live(all, Same, FINGERPRINT_TTL, now) && k !in some ::
         && (forall kept | kept in some :: all[k] <= some[kept])
         && (all[k] != 0 ==> |some| >= FINGERPRINT_CAP)
  }

  lemma StillTheNewest(all: map<string, Instant>, some: map<string, Instant>, after: map<string, Instant>, now: Instant)
    requires OnlyEarlierMissing(all, some, now) && Remains(some, after, now, true) && |all| > FINGERPRINT_CAP
    ensures Remains(all, after, now, true)
  {
    var live := Live(all, Same, FINGERPRINT_TTL, now);
    assert NewestOf(live, after, Same);
    if k :| Gone(live, after, k) {
      if k in some {
        assert Gone(Live(some, Same, FINGERPRINT_TTL, now), after, k);
      } else {
        FullStaysFull(some, after, all[k], now, true);
      }
    }
  }

  method CloneData(data: Data) returns (copy: Data)
    requires Settled(data)
    ensures DeepCopy(data, copy)
    ensures forall m: TimedMap?<Instant> | m in TimeMaps(copy) && m != null :: fresh(m)
  {
    hide HasDefaults;
    var lastSent := new TimedMap<Instant>(data.lastSent.entries);
    copy := data.(logFeeds := map[], lastSent := lastSent);
    var left := data.logFeeds.Keys;
    while left != {}
      invariant left <= data.logFeeds.Keys
      invariant copy == data.(logFeeds := copy.logFeeds, lastSent := lastSent)
      invariant fresh(lastSent) && lastSent.entries == data.lastSent.entries
      invariant copy.logFeeds.Keys == data.logFeeds.Keys - left
      invariant forall key | key in copy.logFeeds ::
                  var m := copy.logFeeds[key].fingerprints;
                  && copy.logFeeds[key] == data.logFeeds[key].(fingerprints := m)
                  && m != null && fresh(m) && m.entries == data.logFeeds[key].fingerprints.entries
      invariant forall key, key' | key in copy.logFeeds && key' in copy.logFeeds && key != key' ::
                  copy.logFeeds[key].fingerprints != copy.logFeeds[key'].fingerprints
      decreases left
    {
      var key :| key in left;
      left := left - {key};
      var value := data.logFeeds[key];
      var cloned := new TimedMap<Instant>(value.fingerprints.entries);
      copy := copy.(logFeeds := copy.logFeeds[key := value.(fingerprints := cloned)]);
    }
  }
}

/** Grouping recent alerts into incidents: one pass, a sort and a limit.

    `Summaries` says what the groups must be without any pass over the events: one summary for each
    key, with its count and its earliest and latest time. */
module Grouping {
  import opened Clock
  import opened Sorting

  // ----- Events as occurrences of a key -----

  /** What grouping depends on; `at` is 0 for an event without a time. */
  datatype Occurrence = Occurrence(key: string, at: Instant)

  datatype Summary = Summary(key: string, count: nat, first: Instant, latest: Instant)

  function CountOf(events: seq<Occurrence>, key: string): nat {
    if events == [] then 0
    else CountOf(events[..|events| - 1], key) + if events[|events| - 1].key == key then 1 else 0
  }

  function Earlier(a: Instant, b: Instant): Instant {
    if a == 0 then b else if b == 0 || a <= b then a else b
  }

  function Later(a: Instant, b: Instant): Instant {
    if a >= b then a else b
  }

  function FirstOf(events: seq<Occurrence>, key: string): Instant {
    if events == [] then 0
    else
      var last := events[|events| - 1];
      var before := FirstOf(events[..|events| - 1], key);
      if last.key == key then Earlier(before, last.at) else before
  }

  function LatestOf(events: seq<Occurrence>, key: string): Instant {
    if events == [] then 0
    else
      var last := events[|events| - 1];
      var before := LatestOf(events[..|events| - 1], key);
      if last.key == key then Later(before, last.at) else before
  }

  function SummaryOf(events: seq<Occurrence>, key: string): Summary {
    Summary(key, CountOf(events, key), FirstOf(events, key), LatestOf(events, key))
  }

  /** First and latest are the least and the greatest of the times an event of the key has. */
  lemma {:induction false} FirstAndLatestAreBounds(events: seq<Occurrence>, key: string)
    ensures var first, latest := FirstOf(events, key), LatestOf(events, key);
            && (forall e | e in events && e.key == key && e.at != 0 :: first <= e.at <= latest)
            && (first == 0 <==> latest == 0)
            && (first != 0 ==> Occurrence(key, first) in events && Occurrence(key, latest) in events)
            && (first == 0 ==> forall e | e in events && e.key == key :: e.at == 0)
    ensures CountOf(events, key) > 0 <==> exists e :: e in events && e.key == key
  {
    if events != [] {
      var before, last := events[..|events| - 1], events[|events| - 1];
      FirstAndLatestAreBounds(before, key);
      assert last in events;
      assert forall e | e in before :: e in events;
      assert forall e | e in events :: e in before || e == last;
    }
  }

  lemma {:induction false} CountIsMultiplicity(events: seq<Occurrence>, key: string)
    ensures CountOf(events, key) == |MatchesOf(events, key)|
    ensures forall e :: MatchesOf(events, key)[e] == if e.key == key then multiset(events)[e] else 0
  {
    if events != [] {
      CountIsMultiplicity(events[..|events| - 1], key);
      assert events == events[..|events| - 1] + [events[|events| - 1]];
    }
  }

  function MatchesOf(events: seq<Occurrence>, key: string): multiset<Occurrence> {
    if events == [] then multiset{}
    else MatchesOf(events[..|events| - 1], key) +
         if events[|events| - 1].key == key then multiset{events[|events| - 1]} else multiset{}
  }

  /** The summary of a key does not depend on the order of the events. */
  lemma SummaryIgnoresOrder(a: seq<Occurrence>, b: seq<Occurrence>, key: string)
    requires multiset(a) == multiset(b)
    ensures SummaryOf(a, key) == SummaryOf(b, key)
  {
    CountIsMultiplicity(a, key);
    CountIsMultiplicity(b, key);
    assert MatchesOf(a, key) == MatchesOf(b, key);
    SameMultisetSameLength(a, b);
    FirstAndLatestAreBounds(a, key);
    FirstAndLatestAreBounds(b, key);
  }

  // ----- The order of the groups -----

  function TextLess(a: string, b: string): bool {
    if b == "" then false
    else if a == "" then true
    else a[0] < b[0] || (a[0] == b[0] && TextLess(a[1..], b[1..]))
  }

  lemma {:induction false} TextLessTrichotomy(a: string, b: string)
    ensures TextLess(a, b) ==> !TextLess(b, a)
    ensures !TextLess(a, b) && !TextLess(b, a) <==> a == b
    decreases |a| + |b|
  {
    if a != "" && b != "" {
      TextLessTrichotomy(a[1..], b[1..]);
      assert a == [a[0]] + a[1..] && b == [b[0]] + b[1..];
    }
  }

  lemma {:induction false} TextLessTransitive(a: string, b: string, c: string)
    requires TextLess(a, b) && TextLess(b, c)
    ensures TextLess(a, c)
    decreases |a|
  {
    if a != "" && a[0] == b[0] == c[0] {
      TextLessTransitive(a[1..], b[1..], c[1..]);
    }
  }

  /** The first place where two texts differ, and the first of them has the smaller character. */
  predicate DifferFirst(a: string, b: string, n: int) {
    0 <= n < |a| && n < |b| && a[..n] == b[..n] && a[n] < b[n]
  }

  /** It is the order of the dictionary: a proper prefix first, else by the first character that differs. */
  lemma {:induction false} TextLessMeaning(a: string, b: string)
    decreases |a|
    ensures TextLess(a, b) <==> a < b || exists n :: DifferFirst(a, b, n)
  {
    if a != "" && b != "" {
      TextLessMeaning(a[1..], b[1..]);
      Heads(a, b);
      hide DifferFirst;
    }
  }

  lemma Heads(a: string, b: string)
    requires a != "" && b != ""
    ensures a < b <==> a[0] == b[0] && a[1..] < b[1..]
    ensures (exists n :: DifferFirst(a, b, n)) <==>
            a[0] < b[0] || (a[0] == b[0] && exists n :: DifferFirst(a[1..], b[1..], n))
  {
    assert a == [a[0]] + a[1..] && b == [b[0]] + b[1..];
    if a[0] < b[0] {
      assert DifferFirst(a, b, 0);
    }
    if a[0] == b[0] {
      if n :| DifferFirst(a[1..], b[1..], n) {
        assert a[..n + 1] == [a[0]] + a[1..][..n] && b[..n + 1] == [b[0]] + b[1..][..n];
        assert DifferFirst(a, b, n + 1);
      }
    }
    if n :| DifferFirst(a, b, n) {
      if n > 0 {
        assert a[..n][0] == a[0] && b[..n][0] == b[0];
        assert a[1..][..n - 1] == a[..n][1..] && b[1..][..n - 1] == b[..n][1..];
        assert DifferFirst(a[1..], b[1..], n - 1);
      }
    }
  }

  /** The comparison of the source, branch by branch. */
  predicate Before(a: Summary, b: Summary) {
    if a.latest == b.latest then TextLess(a.key, b.key)
    else if a.latest == 0 then false
    else if b.latest == 0 then true
    else a.latest > b.latest
  }

  /** It is a strict order that tells groups of different keys apart: latest first, then by key. */
  lemma BeforeIsStrict(a: Summary, b: Summary, c: Summary)
    ensures !(Before(a, b) && Before(b, a))
    ensures a.key != b.key ==> Before(a, b) || Before(b, a)
    ensures Before(a, b) && Before(b, c) ==> Before(a, c)
  {
    TextLessTrichotomy(a.key, b.key);
    if TextLess(a.key, b.key) && TextLess(b.key, c.key) {
      TextLessTransitive(a.key, b.key, c.key);
    }
  }

  predicate NotAfter(a: Summary, b: Summary) {
    !Before(b, a)
  }

  lemma NotAfterIsTotal()
    ensures TotalPreorder(NotAfter)
  {
    forall a, b ensures NotAfter(a, b) || NotAfter(b, a) {
      BeforeIsStrict(a, b, a);
    }
    forall a, b, c | NotAfter(a, b) && NotAfter(b, c) ensures NotAfter(a, c) {
      NotBeforeTransitive(c, b, a);
    }
  }

  lemma NotBeforeTransitive(a: Summary, b: Summary, c: Summary)
    requires !Before(a, b) && !Before(b, c)
    ensures !Before(a, c)
  {
    BeforeIsStrict(a, b, c);
    BeforeIsStrict(b, a, c);
    BeforeIsStrict(a, c, b);
    BeforeIsStrict(b, c, a);
    if a.key == b.key { TextLessTrichotomy(a.key, b.key); }
    if b.key == c.key { TextLessTrichotomy(b.key, c.key); }
  }

  // ----- The groups of a list of events -----

  /** The keys in order of first appearance; events with an empty key are skipped. */
  function KeysOf(events: seq<Occurrence>): (keys: seq<string>)
    ensures forall key :: key in keys <==> key != "" && exists e :: e in events && e.key == key
    ensures forall i, j | 0 <= i < j < |keys| :: keys[i] != keys[j]
  {
    if events == [] then []
    else
      var before, last := events[..|events| - 1], events[|events| - 1];
      assert last in events;
      assert forall e | e in before :: e in events;
      assert forall e | e in events :: e in before || e == last;
      var keys := KeysOf(before);
      if last.key == "" || last.key in keys then keys else keys + [last.key]
  }

  function SummariesOf(events: seq<Occurrence>, keys: seq<string>): (r: seq<Summary>)
    ensures |r| == |keys|
    ensures forall i | 0 <= i < |r| :: r[i] == SummaryOf(events, keys[i])
  {
    if keys == [] then []
    else SummariesOf(events, keys[..|keys| - 1]) + [SummaryOf(events, keys[|keys| - 1])]
  }

  /** All groups, sorted: one for each key. */
  function Summaries(events: seq<Occurrence>): seq<Summary> {
    NotAfterIsTotal();
    Sort(SummariesOf(events, KeysOf(events)), NotAfter)
  }

  function Limited(groups: seq<Summary>, limit: int): seq<Summary> {
    var n := if limit <= 0 then 5 else limit;
    if |groups| > n then groups[..n] else groups
  }

  function TotalCount(groups: seq<Summary>): nat {
    if groups == [] then 0 else TotalCount(groups[..|groups| - 1]) + groups[|groups| - 1].count
  }

  function KeyedEvents(events: seq<Occurrence>): nat {
    if events == [] then 0
    else KeyedEvents(events[..|events| - 1]) + if events[|events| - 1].key != "" then 1 else 0
  }

  lemma SummariesMatch(events: seq<Occurrence>, s: Summary)
    ensures s in Summaries(events) <==> s.key in KeysOf(events) && s == SummaryOf(events, s.key)
  {
    NotAfterIsTotal();
    var unsorted := SummariesOf(events, KeysOf(events));
    SameMultisetSameLength(unsorted, Summaries(events));
    if s in unsorted {
      var i :| 0 <= i < |unsorted| && unsorted[i] == s;
      assert KeysOf(events)[i] in KeysOf(events);
    }
    if s.key in KeysOf(events) && s == SummaryOf(events, s.key) {
      var i :| 0 <= i < |KeysOf(events)| && KeysOf(events)[i] == s.key;
      assert unsorted[i] == s;
    }
  }

  lemma {:induction false} SummariesAreDistinct(events: seq<Occurrence>, keys: seq<string>, s: Summary)
    requires forall i, j | 0 <= i < j < |keys| :: keys[i] != keys[j]
    ensures multiset(SummariesOf(events, keys))[s] == if s.key in keys && s == SummaryOf(events, s.key) then 1 else 0
  {
    if keys != [] {
      var n := |keys| - 1;
      SummariesAreDistinct(events, keys[..n], s);
      assert keys == keys[..n] + [keys[n]];
      assert SummariesOf(events, keys) == SummariesOf(events, keys[..n]) + [SummaryOf(events, keys[n])];
    }
  }

  /** Order independence: any permutation of the events gives the same groups in the same order, and
      so the same groups under every limit. */
  lemma GroupingIgnoresOrder(a: seq<Occurrence>, b: seq<Occurrence>, limit: int)
    requires multiset(a) == multiset(b)
    ensures Summaries(a) == Summaries(b)
    ensures Limited(Summaries(a), limit) == Limited(Summaries(b), limit)
  {
    hide Sort;
    NotAfterIsTotal();
    SameMultisetSameLength(a, b);
    forall s ensures multiset(SummariesOf(a, KeysOf(a)))[s] == multiset(SummariesOf(b, KeysOf(b)))[s] {
      SummariesAreDistinct(a, KeysOf(a), s);
      SummariesAreDistinct(b, KeysOf(b), s);
      SummaryIgnoresOrder(a, b, s.key);
    }
    assert multiset(Summaries(a)) == multiset(Summaries(b));
    forall x, y | x in Summaries(a) && y in Summaries(a) && NotAfter(x, y) && NotAfter(y, x) ensures x == y {
      SummariesMatch(a, x);
      SummariesMatch(a, y);
      BeforeIsStrict(x, y, x);
    }
    SortedIsUnique(Summaries(a), Summaries(b), NotAfter);
  }

  /** The limit keeps the top of the order: nothing dropped comes before anything kept. */
  lemma LimitKeepsTheTop(events: seq<Occurrence>, limit: int, kept: Summary, dropped: Summary)
    requires kept in Limited(Summaries(events), limit)
    requires dropped in Summaries(events) && dropped !in Limited(Summaries(events), limit)
    ensures Before(kept, dropped)
  {
    NotAfterIsTotal();
    var all := Summaries(events);
    var i :| 0 <= i < |Limited(all, limit)| && Limited(all, limit)[i] == kept;
    var j :| 0 <= j < |all| && all[j] == dropped;
    assert j >= |Limited(all, limit)|;
    assert NotAfter(all[i], all[j]);
    SummariesMatch(events, kept);
    SummariesMatch(events, dropped);
    BeforeIsStrict(kept, dropped, kept);
  }

  /** What is shown comes latest first, groups without a time last and equal times by their keys; an
      event whose group is not shown is no later than anything shown, and is left out only for a full
      list. */
  lemma LatestFirst(events: seq<Occurrence>, limit: int)
    ensures var shown := Limited(Summaries(events), limit);
            && (forall i, j | 0 <= i < j < |shown| ::
                  && shown[i].latest >= shown[j].latest
                  && (shown[i].latest == shown[j].latest ==> TextLess(shown[i].key, shown[j].key)))
            && (forall e | e in events && e.key != "" && (forall s | s in shown :: s.key != e.key) ::
                  && |shown| == (if limit <= 0 then 5 else limit)
                  && forall s | s in shown :: e.at <= s.latest)
  {
    hide Sort, KeysOf, SummaryOf;
    NotAfterIsTotal();
    var all, shown := Summaries(events), Limited(Summaries(events), limit);
    forall i, j | 0 <= i < j < |shown|
      ensures shown[i].latest >= shown[j].latest
      ensures shown[i].latest == shown[j].latest ==> TextLess(shown[i].key, shown[j].key)
    {
      assert NotAfter(all[i], all[j]);
      SummariesMatch(events, all[i]);
      SummariesMatch(events, all[j]);
      AllDifferent(events, i, j);
      TextLessTrichotomy(shown[i].key, shown[j].key);
    }
    forall e | e in events && e.key != "" && (forall s | s in shown :: s.key != e.key)
      ensures |shown| == (if limit <= 0 then 5 else limit)
      ensures forall s | s in shown :: e.at <= s.latest
    {
      var own := SummaryOf(events, e.key);
      SummariesMatch(events, own);
      OwnSummary(events, e);
      assert own in all && own !in shown;
      forall s | s in shown ensures e.at <= s.latest {
        LimitKeepsTheTop(events, limit, s, own);
      }
    }
  }

  lemma OwnSummary(events: seq<Occurrence>, e: Occurrence)
    requires e in events && e.key != ""
    ensures e.key in KeysOf(events)
    ensures SummaryOf(events, e.key).key == e.key && e.at <= SummaryOf(events, e.key).latest
  {
    FirstAndLatestAreBounds(events, e.key);
  }

  lemma AllDifferent(events: seq<Occurrence>, i: int, j: int)
    requires 0 <= i < j < |Summaries(events)|
    ensures Summaries(events)[i].key != Summaries(events)[j].key
  {
    hide Sort, SummaryOf, KeysOf;
    NotAfterIsTotal();
    var all := Summaries(events);
    SummariesMatch(events, all[i]);
    SummariesMatch(events, all[j]);
    if all[i].key == all[j].key {
      SummariesAreDistinct(events, KeysOf(events), all[i]);
      TwiceInMultiset(all, i, j);
    }
  }

  lemma TwiceInMultiset<T>(s: seq<T>, i: int, j: int)
    requires 0 <= i < j < |s| && s[i] == s[j]
    ensures multiset(s)[s[i]] >= 2
  {
    assert s == s[..j] + [s[j]] + s[j + 1..];
    assert s[i] in s[..j];
  }

  // ----- Conservation -----

  lemma {:induction false} TotalCountIsMultisetSum(groups: seq<Summary>, i: int)
    requires 0 <= i < |groups|
    ensures TotalCount(groups) == TotalCount(groups[..i] + groups[i + 1..]) + groups[i].count
  {
    var n := |groups| - 1;
    if i == n {
      assert groups[..i] + groups[i + 1..] == groups[..n];
    } else {
      TotalCountIsMultisetSum(groups[..n], i);
      var rest := groups[..i] + groups[i + 1..];
      assert rest[..|rest| - 1] == groups[..n][..i] + groups[..n][i + 1..];
    }
  }

  lemma WithoutOne<T>(s: seq<T>, i: int)
    requires 0 <= i < |s|
    ensures multiset(s[..i] + s[i + 1..]) == multiset(s) - multiset{s[i]}
  {
    assert s == s[..i] + [s[i]] + s[i + 1..];
  }

  lemma {:induction false} TotalCountIgnoresOrder(a: seq<Summary>, b: seq<Summary>)
    requires multiset(a) == multiset(b)
    ensures TotalCount(a) == TotalCount(b)
    decreases |a|
  {
    SameMultisetSameLength(a, b);
    if a != [] {
      var n := |a| - 1;
      assert a[n] in b;
      var i :| 0 <= i < |b| && b[i] == a[n];
      var rest := b[..i] + b[i + 1..];
      assert a == a[..n] + [a[n]];
      WithoutOne(b, i);
      assert multiset(a[..n]) == multiset(a) - multiset{a[n]};
      TotalCountIgnoresOrder(a[..n], rest);
      TotalCountIsMultisetSum(b, i);
    }
  }

  function CountsOver(events: seq<Occurrence>, keys: seq<string>): nat {
    if keys == [] then 0 else CountsOver(events, keys[..|keys| - 1]) + CountOf(events, keys[|keys| - 1])
  }

  lemma {:induction false} TotalIsCounts(events: seq<Occurrence>, keys: seq<string>)
    ensures TotalCount(SummariesOf(events, keys)) == CountsOver(events, keys)
  {
    if keys != [] {
      TotalIsCounts(events, keys[..|keys| - 1]);
      assert SummariesOf(events, keys)[..|keys| - 1] == SummariesOf(events, keys[..|keys| - 1]);
    }
  }

  lemma {:induction false} CountsOneMore(events: seq<Occurrence>, e: Occurrence, keys: seq<string>)
    requires forall i, j | 0 <= i < j < |keys| :: keys[i] != keys[j]
    ensures CountsOver(events + [e], keys) == CountsOver(events, keys) + if e.key in keys then 1 else 0
  {
    if keys != [] {
      var n := |keys| - 1;
      CountsOneMore(events, e, keys[..n]);
      assert (events + [e])[..|events|] == events;
      assert keys == keys[..n] + [keys[n]];
    }
  }

  lemma {:induction false} CountsConserve(events: seq<Occurrence>)
    ensures CountsOver(events, KeysOf(events)) == KeyedEvents(events)
  {
    hide FirstOf, LatestOf;
    if events != [] {
      var before, last := events[..|events| - 1], events[|events| - 1];
      CountsConserve(before);
      var keys := KeysOf(before);
      assert events == before + [last];
      CountsOneMore(before, last, keys);
      if last.key != "" && last.key !in keys {
        assert (keys + [last.key])[..|keys|] == keys;
        FirstAndLatestAreBounds(before, last.key);
        assert CountOf(before, last.key) == 0;
      }
    }
  }

  /** Conservation: before the limit, the groups count every event with a non-empty key once. */
  lemma GroupingConservesEvents(events: seq<Occurrence>)
    ensures TotalCount(Summaries(events)) == KeyedEvents(events)
  {
    hide Sort;
    NotAfterIsTotal();
    TotalCountIgnoresOrder(SummariesOf(events, KeysOf(events)), Summaries(events));
    TotalIsCounts(events, KeysOf(events));
    CountsConserve(events);
  }

  // ----- Groups that carry more than their summary -----

  lemma {:induction false} InsertProjects<G(!new)>(
      x: G, groups: seq<G>, le: (G, G) -> bool, y: Summary, sums: seq<Summary>, project: G -> Summary)
    requires |groups| == |sums| && forall i | 0 <= i < |groups| :: project(groups[i]) == sums[i]
    requires project(x) == y && forall a, b :: le(a, b) <==> NotAfter(project(a), project(b))
    ensures var r, t := Insert(x, groups, le), Insert(y, sums, NotAfter);
            |r| == |t| && forall i | 0 <= i < |r| :: project(r[i]) == t[i]
  {
    if groups != [] && !le(x, groups[0]) {
      InsertProjects(x, groups[1..], le, y, sums[1..], project);
    }
  }

  /** Sorting the groups sorts their summaries. */
  lemma {:induction false} SortProjects<G(!new)>(
      groups: seq<G>, le: (G, G) -> bool, sums: seq<Summary>, project: G -> Summary)
    requires |groups| == |sums| && forall i | 0 <= i < |groups| :: project(groups[i]) == sums[i]
    requires forall a, b :: le(a, b) <==> NotAfter(project(a), project(b))
    ensures TotalPreorder(le) && TotalPreorder(NotAfter)
    ensures var r, t := Sort(groups, le), Sort(sums, NotAfter);
            |r| == |t| && forall i | 0 <= i < |r| :: project(r[i]) == t[i]
  {
    NotAfterIsTotal();
    ProjectedIsTotal(le, project);
    hide *;
    if groups == [] {
      NothingSorted(groups, le);
      NothingSorted(sums, NotAfter);
    } else {
      var n := |groups| - 1;
      SortProjects(groups[..n], le, sums[..n], project);
      SortOneMore(groups, le);
      SortOneMore(sums, NotAfter);
      InsertProjects(groups[n], Sort(groups[..n], le), le, sums[n], Sort(sums[..n], NotAfter), project);
    }
  }

  lemma ProjectedIsTotal<G(!new)>(le: (G, G) -> bool, project: G -> Summary)
    requires TotalPreorder(NotAfter) && forall a, b :: le(a, b) <==> NotAfter(project(a), project(b))
    ensures TotalPreorder(le)
  {
    hide NotAfter;
  }

  lemma NothingSorted<T(!new)>(s: seq<T>, le: (T, T) -> bool)
    requires TotalPreorder(le) && s == []
    ensures Sort(s, le) == []
  {
    hide TotalPreorder, SortedBy;
  }

  lemma SortOneMore<T(!new)>(s: seq<T>, le: (T, T) -> bool)
    requires TotalPreorder(le) && s != []
    ensures Sort(s, le) == Insert(s[|s| - 1], Sort(s[..|s| - 1], le), le)
  {
    hide TotalPreorder, SortedBy, Insert;
  }

  // ----- Events of any kind -----

  function OccurrencesOf<E>(events: seq<E>, occurrence: E -> Occurrence): (r: seq<Occurrence>)
    ensures |r| == |events|
    ensures forall i | 0 <= i < |r| :: r[i] == occurrence(events[i])
  {
    if events == [] then []
    else OccurrencesOf(events[..|events| - 1], occurrence) + [occurrence(events[|events| - 1])]
  }

  /** What one more event changes: the summary of its own key, and the keys if it is the first. */
  lemma OneMoreOccurrence<E>(events: seq<E>, e: E, occurrence: E -> Occurrence, key: string)
    ensures var o := occurrence(e);
            var before, after := OccurrencesOf(events, occurrence), OccurrencesOf(events + [e], occurrence);
            var was := SummaryOf(before, key);
            && after == before + [o]
            && SummaryOf(after, key) == (if o.key != key then was
                                         else Summary(key, was.count + 1, Earlier(was.first, o.at),
                                                      Later(was.latest, o.at)))
            && KeysOf(after) == (if o.key == "" || o.key in KeysOf(before) then KeysOf(before)
                                 else KeysOf(before) + [o.key])
  {
    assert (events + [e])[..|events|] == events;
    var o := occurrence(e);
    assert (OccurrencesOf(events, occurrence) + [o])[..|events|] == OccurrencesOf(events, occurrence);
  }

  lemma NoOccurrences<E>(events: seq<E>, occurrence: E -> Occurrence)
    requires events == []
    ensures KeysOf(OccurrencesOf(events, occurrence)) == []
  {
  }

  /** A key is there exactly if an event has it; before that its summary is empty. */
  lemma KeysAreOfEvents<E>(events: seq<E>, occurrence: E -> Occurrence, key: string)
    requires key != ""
    ensures key in KeysOf(OccurrencesOf(events, occurrence)) <==> exists e :: e in events && occurrence(e).key == key
    ensures key !in KeysOf(OccurrencesOf(events, occurrence)) ==>
              SummaryOf(OccurrencesOf(events, occurrence), key) == Summary(key, 0, 0, 0)
  {
    var occurrences := OccurrencesOf(events, occurrence);
    FirstAndLatestAreBounds(occurrences, key);
    if o :| o in occurrences && o.key == key {
      var i :| 0 <= i < |occurrences| && occurrences[i] == o;
      assert events[i] in events;
    }
    if e :| e in events && occurrence(e).key == key {
      var i :| 0 <= i < |events| && events[i] == e;
      assert occurrences[i] in occurrences;
    }
  }

  // ----- Gathering groups of any kind -----

  /** The groups of the events so far, and their keys in order of first appearance: each group has
      the summary of its key and is described by the events. */
  ghost predicate Gathered<E, G>(order: seq<string>, groups: map<string, G>, events: seq<E>,
                                 occurrence: E -> Occurrence,
                                 project: G -> Summary, describes: (G, seq<E>) -> bool)
  {
    && order == KeysOf(OccurrencesOf(events, occurrence))
    && (forall key :: key in groups <==> key in order)
    && (forall key | key in groups ::
          describes(groups[key], events) && project(groups[key]) == SummaryOf(OccurrencesOf(events, occurrence), key))
  }

  lemma NothingGathered<E, G>(events: seq<E>, occurrence: E -> Occurrence, project: G -> Summary,
                              describes: (G, seq<E>) -> bool)
    requires events == []
    ensures Gathered([], map[], events, occurrence, project, describes)
  {
    NoOccurrences(events, occurrence);
  }

  /** One more event: its own group is described with it, and every other group still is. */
  lemma GatheredGoesOn<E, G>(order: seq<string>, groups: map<string, G>, before: seq<E>, e: E,
                             occurrence: E -> Occurrence, project: G -> Summary, describes: (G, seq<E>) -> bool,
                             groups': map<string, G>)
    requires Gathered(order, groups, before, occurrence, project, describes)
    requires forall key | key in groups && key != occurrence(e).key :: describes(groups[key], before + [e])
    requires var key := occurrence(e).key;
             if key == "" then groups' == groups
             else && key in groups' && groups' == groups[key := groups'[key]] && describes(groups'[key], before + [e])
                  && project(groups'[key]) == SummaryOf(OccurrencesOf(before + [e], occurrence), key)
    ensures var key := occurrence(e).key;
            Gathered(if key == "" || key in order then order else order + [key], groups', before + [e],
                     occurrence, project, describes)
  {
    hide KeysOf, SummaryOf, OccurrencesOf;
    OneMoreOccurrence(before, e, occurrence, occurrence(e).key);
    forall key | key in groups' && key != occurrence(e).key
      ensures describes(groups'[key], before + [e])
      ensures project(groups'[key]) == SummaryOf(OccurrencesOf(before + [e], occurrence), key)
    {
      OneMoreOccurrence(before, e, occurrence, key);
    }
  }

  /** Sorting the groups in their order gives the specified summaries. */
  lemma GroupsSort<E, G(!new)>(order: seq<string>, groups: map<string, G>, events: seq<E>, occurrence: E -> Occurrence,
                               project: G -> Summary, describes: (G, seq<E>) -> bool, le: (G, G) -> bool,
                                   unsorted: seq<G>)
    requires Gathered(order, groups, events, occurrence, project, describes)
    requires |unsorted| == |order| && forall i | 0 <= i < |order| :: unsorted[i] == groups[order[i]]
    requires forall a, b :: le(a, b) <==> NotAfter(project(a), project(b))
    ensures TotalPreorder(le)
    ensures var sorted, expected := Sort(unsorted, le), Summaries(OccurrencesOf(events, occurrence));
            |sorted| == |expected| && forall i | 0 <= i < |sorted| :: project(sorted[i]) == expected[i]
    ensures forall group | group in Sort(unsorted, le) :: describes(group, events)
  {
    hide KeysOf, Sort, NotAfter, SummaryOf;
    var sums := SummariesOf(OccurrencesOf(events, occurrence), order);
    SortProjects(unsorted, le, sums, project);
    SameMultisetSameLength(Sort(unsorted, le), unsorted);
  }

  /** The end of both passes: the groups in order of appearance, sorted and limited. */
  method SortedAndLimited<E, G(!new)>(order: seq<string>, groups: map<string, G>, ghost events: seq<E>,
                                      ghost occurrence: E -> Occurrence,
                                      ghost project: G -> Summary, ghost describes: (G, seq<E>) -> bool,
                                          le: (G, G) -> bool, limit: int)
    returns (result: seq<G>)
    requires Gathered(order, groups, events, occurrence, project, describes)
    requires forall a, b :: le(a, b) <==> NotAfter(project(a), project(b))
    ensures var expected := Limited(Summaries(OccurrencesOf(events, occurrence)), limit);
            |result| == |expected| && forall i | 0 <= i < |result| :: project(result[i]) == expected[i]
    ensures forall group | group in result :: describes(group, events)
    ensures forall i, j | 0 <= i < j < |result| ::
              var a, b := project(result[i]), project(result[j]);
              a.latest >= b.latest && (a.latest == b.latest ==> TextLess(a.key, b.key))
    ensures forall e | e in events && occurrence(e).key != ""
              && (forall group | group in result :: project(group).key != occurrence(e).key) ::
              && |result| == (if limit <= 0 then 5 else limit)
              && forall group | group in result :: occurrence(e).at <= project(group).latest
  {
    hide KeysOf, Sort, NotAfter, SummaryOf, Summaries, TextLess;
    var most := if limit <= 0 then 5 else limit;
    LatestFirst(OccurrencesOf(events, occurrence), limit);
    result := Ordered(order, groups);
    GroupsSort(order, groups, events, occurrence, project, describes, le, result);
    result := Sort(result, le);
    if |result| > most {
      result := result[..most];
    }
    NotShown(events, occurrence, project, result, limit);
  }

  lemma NotShown<E, G>(events: seq<E>, occurrence: E -> Occurrence, project: G -> Summary, result: seq<G>, limit: int)
    requires var expected := Limited(Summaries(OccurrencesOf(events, occurrence)), limit);
             |result| == |expected| && forall i | 0 <= i < |result| :: project(result[i]) == expected[i]
    ensures forall e | e in events && occurrence(e).key != ""
              && (forall group | group in result :: project(group).key != occurrence(e).key) ::
              && |result| == (if limit <= 0 then 5 else limit)
              && forall group | group in result :: occurrence(e).at <= project(group).latest
  {
    hide KeysOf, Sort, NotAfter, SummaryOf, Summaries, TextLess, Limited;
    var occurrences := OccurrencesOf(events, occurrence);
    var shown := Limited(Summaries(occurrences), limit);
    LatestFirst(occurrences, limit);
    forall e | e in events && occurrence(e).key != ""
      && (forall group | group in result :: project(group).key != occurrence(e).key)
      ensures |result| == (if limit <= 0 then 5 else limit)
      ensures forall group | group in result :: occurrence(e).at <= project(group).latest
    {
      var i :| 0 <= i < |events| && events[i] == e;
      assert occurrences[i] == occurrence(e);
      forall s | s in shown ensures s.key != occurrence(e).key {
        var k :| 0 <= k < |shown| && shown[k] == s;
        assert project(result[k]) == s && result[k] in result;
      }
      forall group | group in result ensures occurrence(e).at <= project(group).latest {
        var k :| 0 <= k < |result| && result[k] == group;
        assert shown[k] in shown;
      }
    }
  }

  /** The groups of a map in a given order. */
  method Ordered<G>(order: seq<string>, groups: map<string, G>) returns (result: seq<G>)
    requires forall key | key in order :: key in groups
    ensures |result| == |order| && forall i | 0 <= i < |order| :: result[i] == groups[order[i]]
  {
    result := [];
    for i := 0 to |order|
      invariant |result| == i && forall k | 0 <= k < i :: result[k] == groups[order[k]]
    {
      result := result + [groups[order[i]]];
    }
  }
}

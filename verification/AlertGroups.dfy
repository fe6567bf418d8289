/** Grouping the recent service alerts of the dashboard. */
module AlertGroups {
  import opened Clock
  import opened Grouping
  import opened Sorting
  import opened Text
  import opened Validation

  datatype AlertEvent = AlertEvent(
    fingerprint: string,
    incidentKey: string,
    service: string,
    severity: string,
    alertType: string,
    summary: string,
    traceIds: seq<string>,
    createdAt: Instant)

  datatype AlertGroup = AlertGroup(
    key: string,
    service: string,
    severity: string,
    alertType: string,
    summary: string,
    count: nat,
    firstAt: Instant,
    latestAt: Instant,
    traceIds: seq<string>,
    totalTraceCount: nat)

  // ----- The key and the texts of an event -----

  predicate Silent(e: AlertEvent) {
    Blank(e.service) && Blank(e.severity) && Blank(e.alertType) && Blank(e.summary)
  }

  function PartsOf(e: AlertEvent): seq<string> {
    var parts := [ToLower(Trim(e.service)), ToLower(Trim(e.severity)), ToLower(Trim(e.alertType)),
                  ToLower(Trim(e.summary))];
    if Silent(e) then parts + [ToLower(Trim(e.fingerprint))] else parts
  }

  function KeyOf(e: AlertEvent): string {
    if !Blank(e.incidentKey) then Trim(e.incidentKey) else TrimNul(Join(PartsOf(e), NUL))
  }

  lemma PartsArePlain(e: AlertEvent)
    requires NUL !in e.service + e.severity + e.alertType + e.summary + e.fingerprint
    ensures Plain(PartsOf(e))
    ensures PartsOf(e)[0] == "" <==> Blank(e.service)
    ensures Silent(e) ==> PartsOf(e) == ["", "", "", "", ToLower(Trim(e.fingerprint))]
  {
    FoldedIsPlain(e.service);
    FoldedIsPlain(e.severity);
    FoldedIsPlain(e.alertType);
    FoldedIsPlain(e.summary);
    FoldedIsPlain(e.fingerprint);
    hide Trim, ToLower;
  }

  lemma FoldedIsPlain(s: string)
    ensures NUL in ToLower(Trim(s)) ==> NUL in s
    ensures ToLower(Trim(s)) == "" <==> Blank(s)
  {
    TrimTrims(s);
  }

  /** An incident key alone decides where there is one. */
  lemma IncidentKeysAgree(a: AlertEvent, b: AlertEvent)
    requires !Blank(a.incidentKey) && !Blank(b.incidentKey)
    ensures KeyOf(a) == KeyOf(b) <==> Trim(a.incidentKey) == Trim(b.incidentKey)
  {
  }

  /** Without an incident key, events with a service are grouped exactly by service, severity, type and
      summary, up to case and outer space. */
  lemma KeysAgree(a: AlertEvent, b: AlertEvent)
    requires Blank(a.incidentKey) && Blank(b.incidentKey) && !Blank(a.service) && !Blank(b.service)
    requires NUL !in a.service + a.severity + a.alertType + a.summary + a.fingerprint
    requires NUL !in b.service + b.severity + b.alertType + b.summary + b.fingerprint
    ensures KeyOf(a) == KeyOf(b) <==>
            && ToLower(Trim(a.service)) == ToLower(Trim(b.service))
            && ToLower(Trim(a.severity)) == ToLower(Trim(b.severity))
            && ToLower(Trim(a.alertType)) == ToLower(Trim(b.alertType))
            && ToLower(Trim(a.summary)) == ToLower(Trim(b.summary))
  {
    KeyIsJoined(a);
    KeyIsJoined(b);
    PartsArePlain(a);
    PartsArePlain(b);
    hide Trim, ToLower, Join, TrimNul, Stripped, Plain, KeyOf;
    TrimmedJoinsAgree(PartsOf(a), PartsOf(b));
    HeadedPartsStay(PartsOf(a), PartsOf(b));
  }

  lemma KeyIsJoined(e: AlertEvent)
    requires Blank(e.incidentKey)
    ensures KeyOf(e) == TrimNul(Join(PartsOf(e), NUL))
  {
    hide PartsOf, Join, TrimNul;
  }

  lemma SilentParts(e: AlertEvent)
    requires Silent(e) && NUL !in e.service + e.severity + e.alertType + e.summary + e.fingerprint
    ensures var text := ToLower(Trim(e.fingerprint));
            Plain(PartsOf(e)) && Stripped(PartsOf(e)) == if text == "" then [] else [text]
  {
    hide *;
    PartsArePlain(e);
    LastPartOnly(PartsOf(e));
  }

  /** Events without any of these texts are grouped by their fingerprints. */
  lemma SilentKeysAgree(a: AlertEvent, b: AlertEvent)
    requires Blank(a.incidentKey) && Silent(a) && Blank(b.incidentKey) && Silent(b)
    requires NUL !in a.service + a.severity + a.alertType + a.summary + a.fingerprint
    requires NUL !in b.service + b.severity + b.alertType + b.summary + b.fingerprint
    ensures KeyOf(a) == KeyOf(b) <==> ToLower(Trim(a.fingerprint)) == ToLower(Trim(b.fingerprint))
  {
    hide *;
    KeyIsJoined(a);
    KeyIsJoined(b);
    SilentParts(a);
    SilentParts(b);
    TrimmedJoinsAgree(PartsOf(a), PartsOf(b));
  }

  /** A text can stand in for the one before it that is missing: an alert of a service alone and an alert
      of that severity alone are one group. */
  lemma TextsMove(a: AlertEvent, b: AlertEvent)
    requires forall e | e in {a, b} ::
               Blank(e.incidentKey) && Blank(e.alertType) && Blank(e.summary) && NUL !in e.service + e.severity
    requires Blank(a.severity) && !Blank(a.service) && Blank(b.service) && !Blank(b.severity)
    ensures KeyOf(a) == KeyOf(b) <==> ToLower(Trim(a.service)) == ToLower(Trim(b.severity))
  {
    FoldedIsPlain(a.service);
    FoldedIsPlain(b.severity);
    FoldedIsPlain("");
    var x, y := ToLower(Trim(a.service)), ToLower(Trim(b.severity));
    assert PartsOf(a) == [x, "", "", ""] && PartsOf(b) == ["", y, "", ""];
    hide Trim, ToLower, Join, TrimNul, PartsOf;
    TrimmedJoinsAgree([x, "", "", ""], ["", y, "", ""]);
    OnePart(x, [x, "", "", ""]);
    assert ["", y, "", ""][1..] == [y, "", ""];
    OnePart(y, [y, "", ""]);
  }

  datatype Field = ServiceText | SeverityText | AlertTypeText | SummaryText

  function TextOf(e: AlertEvent, f: Field): string {
    match f
    case ServiceText => Trim(e.service)
    case SeverityText => Trim(e.severity)
    case AlertTypeText => Trim(e.alertType)
    case SummaryText =>
      if !Blank(e.summary) then Trim(e.summary)
      else Trim(Join([e.service, e.severity, "-", e.alertType], ' '))
  }

  function GroupText(g: AlertGroup, f: Field): string {
    match f
    case ServiceText => g.service
    case SeverityText => g.severity
    case AlertTypeText => g.alertType
    case SummaryText => g.summary
  }

  // ----- What a group must say about the events -----

  function OccurrenceOf(e: AlertEvent): Occurrence {
    Occurrence(KeyOf(e), e.createdAt)
  }

  function Occurrences(events: seq<AlertEvent>): seq<Occurrence> {
    OccurrencesOf(events, OccurrenceOf)
  }

  /** The first text that is not empty, among the events of the key in their order. */
  function FirstFilled(events: seq<AlertEvent>, key: string, f: Field): string {
    if events == [] then ""
    else
      var before, last := FirstFilled(events[..|events| - 1], key, f), events[|events| - 1];
      if before == "" && KeyOf(last) == key then TextOf(last, f) else before
  }

  /** The valid ids, trimmed. */
  function Usable(ids: seq<string>): seq<string> {
    if ids == [] then []
    else
      var id := Trim(ids[|ids| - 1]);
      Usable(ids[..|ids| - 1]) + if id == "" || !ValidId(id) then [] else [id]
  }

  /** The ids of all events of a key, in order, with repetitions. */
  function TracesOf(events: seq<AlertEvent>, key: string): seq<string> {
    if events == [] then []
    else
      var before, last := TracesOf(events[..|events| - 1], key), events[|events| - 1];
      if KeyOf(last) == key then before + Usable(last.traceIds) else before
  }

  /** Each id once, in order of first appearance. */
  function Distinct(ids: seq<string>): (r: seq<string>)
    ensures forall id :: id in r <==> id in ids
    ensures forall i, j | 0 <= i < j < |r| :: r[i] != r[j]
  {
    if ids == [] then []
    else
      var before, last := Distinct(ids[..|ids| - 1]), ids[|ids| - 1];
      assert ids == ids[..|ids| - 1] + [last];
      if last in before then before else before + [last]
  }

  function FirstThree(ids: seq<string>): seq<string> {
    if |ids| > 3 then ids[..3] else ids
  }

  /** The shown ids are the first three distinct ones. The total never falls short of the number of
      distinct ids, and is that number while no more than three are known. */
  predicate TracesFit(shown: seq<string>, total: nat, ids: seq<string>) {
    && shown == FirstThree(Distinct(ids))
    && |Distinct(ids)| <= total
    && (|Distinct(ids)| <= 3 ==> total == |Distinct(ids)|)
  }

  function SummaryIn(g: AlertGroup): Summary {
    Summary(g.key, g.count, g.firstAt, g.latestAt)
  }

  predicate Describes(g: AlertGroup, events: seq<AlertEvent>) {
    && SummaryIn(g) == SummaryOf(Occurrences(events), g.key)
    && (forall f :: GroupText(g, f) == FirstFilled(events, g.key, f))
    && TracesFit(g.traceIds, g.totalTraceCount, TracesOf(events, g.key))
  }

  // ----- One more event -----

  lemma OneMore(events: seq<AlertEvent>, e: AlertEvent, key: string)
    ensures var before, now := SummaryOf(Occurrences(events), key), SummaryOf(Occurrences(events + [e]), key);
            now == if KeyOf(e) != key then before
                   else Summary(key, before.count + 1, Earlier(before.first, e.createdAt),
                                Later(before.latest, e.createdAt))
    ensures forall f :: FirstFilled(events + [e], key, f) ==
                        if FirstFilled(events, key, f) == "" && KeyOf(e) == key then TextOf(e, f)
                            else FirstFilled(events, key, f)
    ensures TracesOf(events + [e], key) == TracesOf(events, key) + if KeyOf(e) == key then Usable(e.traceIds) else []
  {
    assert (events + [e])[..|events|] == events;
    OneMoreOccurrence(events, e, OccurrenceOf, key);
  }

  lemma {:induction false} NothingYet(events: seq<AlertEvent>, key: string)
    requires forall e | e in events :: KeyOf(e) != key
    ensures forall f :: FirstFilled(events, key, f) == ""
    ensures TracesOf(events, key) == []
  {
    hide KeyOf, TextOf, Usable;
    if events != [] {
      var before, last := events[..|events| - 1], events[|events| - 1];
      assert last in events && forall e | e in before :: e in events;
      NothingYet(before, key);
    }
  }

  lemma OthersStay(g: AlertGroup, events: seq<AlertEvent>, e: AlertEvent)
    requires Describes(g, events) && KeyOf(e) != g.key
    ensures Describes(g, events + [e])
  {
    OneMore(events, e, g.key);
  }

  lemma DistinctGrows(ids: seq<string>, id: string)
    ensures Distinct(ids + [id]) == if id in ids then Distinct(ids) else Distinct(ids) + [id]
  {
    assert (ids + [id])[..|ids|] == ids;
  }

  /** Of the first event of a group comes each text that it has; and a summary it always has, if need be of
      its service, severity and type. */
  lemma {:induction false} FirstEventSpeaks(events: seq<AlertEvent>, i: nat, f: Field)
    requires i < |events| && forall j | 0 <= j < i :: KeyOf(events[j]) != KeyOf(events[i])
    ensures TextOf(events[i], f) != "" ==> FirstFilled(events, KeyOf(events[i]), f) == TextOf(events[i], f)
  {
    hide KeyOf, TextOf;
    var n := |events| - 1;
    if i < n {
      FirstEventSpeaks(events[..n], i, f);
    } else {
      NothingYet(events[..n], KeyOf(events[n]));
    }
  }

  lemma {:induction false} JoinKeepsPart(parts: seq<string>, sep: char, i: nat, c: char)
    requires i < |parts| && c in parts[i]
    ensures c in Join(parts, sep)
  {
    if i > 0 { JoinKeepsPart(parts[1..], sep, i - 1, c); }
  }

  lemma SummaryIsThere(e: AlertEvent)
    ensures TextOf(e, SummaryText) != ""
  {
    if Blank(e.summary) {
      var joined := Join([e.service, e.severity, "-", e.alertType], ' ');
      JoinKeepsPart([e.service, e.severity, "-", e.alertType], ' ', 2, '-');
      TrimKeeps(joined, '-');
    }
  }

  lemma {:induction false} TrimLeftKeeps(s: string, c: char)
    requires c in s && !IsSpace(c)
    ensures c in TrimLeft(s)
  {
    if IsSpace(s[0]) { TrimLeftKeeps(s[1..], c); }
  }

  lemma {:induction false} TrimRightKeeps(s: string, c: char)
    requires c in s && !IsSpace(c)
    ensures c in TrimRight(s)
  {
    if IsSpace(s[|s| - 1]) { TrimRightKeeps(s[..|s| - 1], c); }
  }

  lemma TrimKeeps(s: string, c: char)
    requires c in s && !IsSpace(c)
    ensures Trim(s) != ""
  {
    TrimLeftKeeps(s, c);
    TrimRightKeeps(TrimLeft(s), c);
  }

  /** What a shown group says of its first event. */
  predicate SpeaksFor(g: AlertGroup, e: AlertEvent) {
    && (Trim(e.service) != "" ==> g.service == Trim(e.service))
    && (Trim(e.severity) != "" ==> g.severity == Trim(e.severity))
    && (Trim(e.alertType) != "" ==> g.alertType == Trim(e.alertType))
    && g.summary == (if Trim(e.summary) != "" then Trim(e.summary)
                     else Trim(e.service + " " + e.severity + " - " + e.alertType))
  }

  lemma DescribedByTheFirst(g: AlertGroup, events: seq<AlertEvent>, i: nat)
    requires Describes(g, events) && i < |events| && KeyOf(events[i]) == g.key
    requires forall j | 0 <= j < i :: KeyOf(events[j]) != g.key
    ensures SpeaksFor(g, events[i])
  {
    var e := events[i];
    assert forall f :: GroupText(g, f) == FirstFilled(events, g.key, f);
    FirstEventSpeaks(events, i, ServiceText);
    FirstEventSpeaks(events, i, SeverityText);
    FirstEventSpeaks(events, i, AlertTypeText);
    FirstEventSpeaks(events, i, SummaryText);
    SummaryIsThere(e);
    TextMeaning(e);
    assert GroupText(g, ServiceText) == g.service && GroupText(g, SeverityText) == g.severity;
    assert GroupText(g, AlertTypeText) == g.alertType && GroupText(g, SummaryText) == g.summary;
    hide Trim, Join, KeyOf, FirstFilled, TextOf, Describes, GroupText;
  }

  lemma TextMeaning(e: AlertEvent)
    ensures TextOf(e, ServiceText) == Trim(e.service) && TextOf(e, SeverityText) == Trim(e.severity)
    ensures TextOf(e, AlertTypeText) == Trim(e.alertType)
    ensures TextOf(e, SummaryText) == if Trim(e.summary) != "" then Trim(e.summary)
                                      else Trim(e.service + " " + e.severity + " - " + e.alertType)
  {
    FourJoined(e.service, e.severity, "-", e.alertType);
    assert e.service + " " + e.severity + " " + "-" + " " + e.alertType ==
           e.service + " " + e.severity + " - " + e.alertType;
    hide Trim, Join;
  }

  lemma FourJoined(a: string, b: string, c: string, d: string)
    ensures Join([a, b, c, d], ' ') == a + " " + b + " " + c + " " + d
  {
    assert [a, b, c, d][1..] == [b, c, d] && [b, c, d][1..] == [c, d] && [c, d][1..] == [d];
    assert Join([c, d], ' ') == c + " " + d;
    assert Join([b, c, d], ' ') == b + " " + (c + " " + d);
  }

  // ----- The passes of the source -----

  lemma UsableNone()
    ensures Usable([]) == []
  {
  }

  lemma UsableMore(ids: seq<string>, traceIds: seq<string>, raw: string)
    ensures var known, id := ids + Usable(traceIds), Trim(raw);
            ids + Usable(traceIds + [raw]) == if id == "" || !ValidId(id) then known else known + [id]
  {
    assert (traceIds + [raw])[..|traceIds|] == traceIds;
  }

  /** An id that is shown already changes nothing; one that is not is counted, and shown if there is room. */
  lemma TracesGrow(shown: seq<string>, total: nat, known: seq<string>, id: string)
    requires TracesFit(shown, total, known)
    ensures id in known ==> TracesFit(shown, total, known + [id])
    ensures id !in shown ==> TracesFit(if |shown| < 3 then shown + [id] else shown, total + 1, known + [id])
  {
    DistinctGrows(known, id);
    hide Distinct;
  }

  lemma ShownAreKnown(shown: seq<string>, total: nat, known: seq<string>)
    requires TracesFit(shown, total, known)
    ensures forall id | id in shown :: id in known
  {
    hide Distinct;
  }

  /** The ids of one event join those shown; `ids` are all ids the group has seen so far. */
  method AddTraceIds(shown: seq<string>, total: nat, traceIds: seq<string>, ghost ids: seq<string>)
    returns (newShown: seq<string>, newTotal: nat)
    requires TracesFit(shown, total, ids)
    ensures TracesFit(newShown, newTotal, ids + Usable(traceIds))
  {
    hide Trim, ValidId, Usable, TracesFit;
    UsableNone();
    ShownAreKnown(shown, total, ids);
    var seen := set id | id in shown;
    newShown, newTotal := shown, total;
    var i := 0;
    assert traceIds[..0] == [] && ids + [] == ids;
    while i < |traceIds|
      invariant 0 <= i <= |traceIds|
      invariant TracesFit(newShown, newTotal, ids + Usable(traceIds[..i]))
      invariant forall id | id in newShown :: id in seen
      invariant forall id | id in seen :: id in ids + Usable(traceIds[..i])
    {
      ghost var known := ids + Usable(traceIds[..i]);
      var id := Trim(traceIds[i]);
      UsableMore(ids, traceIds[..i], traceIds[i]);
      assert traceIds[..i + 1] == traceIds[..i] + [traceIds[i]];
      if id != "" && ValidId(id) {
        TracesGrow(newShown, newTotal, known, id);
        if id !in seen {
          seen := seen + {id};
          newTotal := newTotal + 1;
          if |newShown| < 3 {
            newShown := newShown + [id];
          }
        }
      }
      i := i + 1;
    }
    assert traceIds[..i] == traceIds;
  }

  /** A text that is right so far, or was already taken from the event that comes next. */
  predicate Filling(text: string, first: string, next: string) {
    text == first || (first == "" && text == next)
  }

  /** Texts that are still empty are taken from the event. */
  method FillTexts(group: AlertGroup, e: AlertEvent) returns (g: AlertGroup)
    ensures forall f :: GroupText(g, f) == if GroupText(group, f) == "" then TextOf(e, f) else GroupText(group, f)
    ensures g == group.(service := g.service, severity := g.severity, alertType := g.alertType, summary := g.summary)
  {
    hide Trim, Join, Blank;
    g := group;
    if g.service == "" {
      g := g.(service := Trim(e.service));
    }
    if g.severity == "" {
      g := g.(severity := Trim(e.severity));
    }
    if g.alertType == "" {
      g := g.(alertType := Trim(e.alertType));
    }
    if g.summary == "" {
      g := g.(summary := TextOf(e, SummaryText));
    }
  }

  method Absorb(group: AlertGroup, e: AlertEvent, ghost events: seq<AlertEvent>) returns (g: AlertGroup)
    requires KeyOf(e) == group.key
    requires SummaryIn(group) == SummaryOf(Occurrences(events), group.key)
    requires forall f :: Filling(GroupText(group, f), FirstFilled(events, group.key, f), TextOf(e, f))
    requires TracesFit(group.traceIds, group.totalTraceCount, TracesOf(events, group.key))
    ensures g.key == group.key && Describes(g, events + [e])
  {
    hide KeyOf, Usable, FirstFilled, TracesOf, TracesFit, CountOf, FirstOf, LatestOf, OccurrencesOf, Trim, Join, Blank;
    OneMore(events, e, group.key);
    g := group.(count := group.count + 1);
    g := FillTexts(g, e);
    if e.createdAt != 0 {
      if g.firstAt == 0 || e.createdAt < g.firstAt {
        g := g.(firstAt := e.createdAt);
      }
      if g.latestAt == 0 || e.createdAt > g.latestAt {
        g := g.(latestAt := e.createdAt);
      }
    }
    var shown, total := AddTraceIds(g.traceIds, g.totalTraceCount, e.traceIds, TracesOf(events, group.key));
    g := g.(traceIds := shown, totalTraceCount := total);
    forall f ensures GroupText(g, f) == FirstFilled(events + [e], g.key, f) {
      assert GroupText(g, f) == if GroupText(group, f) == "" then TextOf(e, f) else GroupText(group, f);
      assert Filling(GroupText(group, f), FirstFilled(events, group.key, f), TextOf(e, f));
    }
  }

  function NewGroup(e: AlertEvent): AlertGroup {
    AlertGroup(KeyOf(e), Trim(e.service), Trim(e.severity), Trim(e.alertType), TextOf(e, SummaryText), 0, 0, 0, [], 0)
  }

  lemma StartTexts(e: AlertEvent)
    ensures forall f :: GroupText(NewGroup(e), f) == TextOf(e, f)
  {
  }

  predicate GroupNotAfter(a: AlertGroup, b: AlertGroup) {
    NotAfter(SummaryIn(a), SummaryIn(b))
  }

  lemma NoTraces()
    ensures TracesFit([], 0, [])
  {
  }

  /** The loop body: the event joins its group, or opens it. */
  method AddEvent(event: AlertEvent, order: seq<string>, groups: map<string, AlertGroup>, ghost before: seq<AlertEvent>)
    returns (order': seq<string>, groups': map<string, AlertGroup>)
    requires Gathered(order, groups, before, OccurrenceOf, SummaryIn, Describes)
    ensures Gathered(order', groups', before + [event], OccurrenceOf, SummaryIn, Describes)
  {
    hide KeyOf, TextOf, Usable, FirstFilled, TracesOf, TracesFit, CountOf, FirstOf, LatestOf, OccurrencesOf, KeysOf;
    order', groups' := order, groups;
    var key := KeyOf(event);
    OneMoreOccurrence(before, event, OccurrenceOf, key);
    if key != "" {
      var group;
      if key in groups {
        group := groups[key];
        assert Describes(group, before);
        forall f ensures Filling(GroupText(group, f), FirstFilled(before, key, f), TextOf(event, f)) {
          assert GroupText(group, f) == FirstFilled(before, key, f);
        }
      } else {
        group := NewGroup(event);
        order' := order + [key];
        KeysAreOfEvents(before, OccurrenceOf, key);
        NothingYet(before, key);
        NoTraces();
        StartTexts(event);
        forall f ensures Filling(GroupText(group, f), FirstFilled(before, key, f), TextOf(event, f)) {
          assert GroupText(group, f) == TextOf(event, f);
        }
      }
      group := Absorb(group, event, before);
      groups' := groups[key := group];
    }
    forall other | other in groups && other != key ensures Describes(groups[other], before + [event]) {
      OthersStay(groups[other], before, event);
    }
    hide Describes;
    GatheredGoesOn(order, groups, before, event, OccurrenceOf, SummaryIn, Describes, groups');
  }

  method GroupRecentServiceAlerts(events: seq<AlertEvent>, limit: int) returns (result: seq<AlertGroup>)
    ensures var groups := Limited(Summaries(Occurrences(events)), limit);
            |result| == |groups| && forall i | 0 <= i < |result| :: SummaryIn(result[i]) == groups[i]
    ensures forall g | g in result :: Describes(g, events)
    ensures forall g, i | g in result && 0 <= i < |events| && KeyOf(events[i]) == g.key
              && (forall j | 0 <= j < i :: KeyOf(events[j]) != g.key) :: SpeaksFor(g, events[i])
    ensures forall i, j | 0 <= i < j < |result| ::
              && result[i].latestAt >= result[j].latestAt
              && (result[i].latestAt == result[j].latestAt ==> TextLess(result[i].key, result[j].key))
    ensures forall e | e in events && KeyOf(e) != "" && (forall g | g in result :: g.key != KeyOf(e)) ::
              |result| == (if limit <= 0 then 5 else limit) && forall g | g in result :: e.createdAt <= g.latestAt
  {
    hide KeyOf, OccurrencesOf, KeysOf, Sort, Describes, Gathered, Summaries, TextLess, SpeaksFor;
    var groups: map<string, AlertGroup> := map[];
    var order: seq<string> := [];
    NothingGathered(events[..0], OccurrenceOf, SummaryIn, Describes);
    for i := 0 to |events|
      invariant Gathered(order, groups, events[..i], OccurrenceOf, SummaryIn, Describes)
    {
      order, groups := AddEvent(events[i], order, groups, events[..i]);
      assert events[..i + 1] == events[..i] + [events[i]];
    }
    assert events[..|events|] == events;
    result := SortedAndLimited(order, groups, events, OccurrenceOf, SummaryIn, Describes, GroupNotAfter, limit);
    forall g, i | g in result && 0 <= i < |events| && KeyOf(events[i]) == g.key
      && (forall j | 0 <= j < i :: KeyOf(events[j]) != g.key)
      ensures SpeaksFor(g, events[i])
    {
      DescribedByTheFirst(g, events, i);
    }
  }
}

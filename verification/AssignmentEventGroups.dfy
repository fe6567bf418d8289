/** Grouping the recent assignment events of the dashboard. */
module AssignmentEventGroups {
  import AlertGroups
  import AssignmentDiagnosis
  import AssignmentModel
  import opened Clock
  import opened Grouping
  import opened Sorting
  import opened Text
  import opened Validation

  datatype AssignmentEvent = AssignmentEvent(
    fingerprint: string,
    issueKey: string,
    eventType: string,
    severity: string,
    courseSlug: string,
    assignmentId: string,
    summary: string,
    reasonCode: string,
    evidenceHash: string,
    createdAt: Instant)

  datatype EventGroup = EventGroup(
    key: string,
    eventType: string,
    severity: string,
    courseSlug: string,
    summary: string,
    reasonCode: string,
    count: nat,
    firstAt: Instant,
    latestAt: Instant,
    assignmentIds: seq<string>,
    issueKey: string,
    evidenceHash: string)

  // ----- The key, the texts and the severity of an event -----

  predicate Silent(e: AssignmentEvent) {
    Blank(e.eventType) && Blank(e.courseSlug) && Blank(e.summary) && Blank(e.reasonCode)
  }

  function PartsOf(e: AssignmentEvent): seq<string> {
    var parts := [ToLower(Trim(e.eventType)), ToLower(Trim(e.courseSlug)), ToLower(Trim(e.summary)),
                  ToLower(Trim(e.reasonCode))];
    if Silent(e) then parts + [ToLower(Trim(e.fingerprint))] else parts
  }

  function KeyOf(e: AssignmentEvent): string {
    TrimNul(Join(PartsOf(e), NUL))
  }

  lemma PartsArePlain(e: AssignmentEvent)
    requires NUL !in e.eventType + e.courseSlug + e.summary + e.reasonCode + e.fingerprint
    ensures Plain(PartsOf(e))
    ensures PartsOf(e)[0] == "" <==> Blank(e.eventType)
    ensures Silent(e) ==> PartsOf(e) == ["", "", "", "", ToLower(Trim(e.fingerprint))]
  {
    AlertGroups.FoldedIsPlain(e.eventType);
    AlertGroups.FoldedIsPlain(e.courseSlug);
    AlertGroups.FoldedIsPlain(e.summary);
    AlertGroups.FoldedIsPlain(e.reasonCode);
    AlertGroups.FoldedIsPlain(e.fingerprint);
    hide Trim, ToLower;
  }

  /** Events with a type are grouped exactly by type, course, summary and reason, up to case and outer space. */
  lemma KeysAgree(a: AssignmentEvent, b: AssignmentEvent)
    requires !Blank(a.eventType) && !Blank(b.eventType)
    requires NUL !in a.eventType + a.courseSlug + a.summary + a.reasonCode + a.fingerprint
    requires NUL !in b.eventType + b.courseSlug + b.summary + b.reasonCode + b.fingerprint
    ensures KeyOf(a) == KeyOf(b) <==>
            && ToLower(Trim(a.eventType)) == ToLower(Trim(b.eventType))
            && ToLower(Trim(a.courseSlug)) == ToLower(Trim(b.courseSlug))
            && ToLower(Trim(a.summary)) == ToLower(Trim(b.summary))
            && ToLower(Trim(a.reasonCode)) == ToLower(Trim(b.reasonCode))
  {
    PartsArePlain(a);
    PartsArePlain(b);
    hide Trim, ToLower, Join, TrimNul, Stripped, Plain;
    TrimmedJoinsAgree(PartsOf(a), PartsOf(b));
    HeadedPartsStay(PartsOf(a), PartsOf(b));
  }

  lemma SilentParts(e: AssignmentEvent)
    requires Silent(e) && NUL !in e.eventType + e.courseSlug + e.summary + e.reasonCode + e.fingerprint
    ensures var text := ToLower(Trim(e.fingerprint));
            Plain(PartsOf(e)) && Stripped(PartsOf(e)) == if text == "" then [] else [text]
  {
    hide *;
    PartsArePlain(e);
    LastPartOnly(PartsOf(e));
  }

  /** Events without any of these texts are grouped by their fingerprints. */
  lemma SilentKeysAgree(a: AssignmentEvent, b: AssignmentEvent)
    requires Silent(a) && Silent(b)
    requires NUL !in a.eventType + a.courseSlug + a.summary + a.reasonCode + a.fingerprint
    requires NUL !in b.eventType + b.courseSlug + b.summary + b.reasonCode + b.fingerprint
    ensures KeyOf(a) == KeyOf(b) <==> ToLower(Trim(a.fingerprint)) == ToLower(Trim(b.fingerprint))
  {
    assert KeyOf(a) == TrimNul(Join(PartsOf(a), NUL)) && KeyOf(b) == TrimNul(Join(PartsOf(b), NUL));
    hide *;
    SilentParts(a);
    SilentParts(b);
    TrimmedJoinsAgree(PartsOf(a), PartsOf(b));
  }

  datatype Field = EventTypeText | CourseSlugText | SummaryText | ReasonCodeText | IssueKeyText | EvidenceHashText

  function TextOf(e: AssignmentEvent, f: Field): string {
    match f
    case EventTypeText => Trim(e.eventType)
    case CourseSlugText => Trim(e.courseSlug)
    case SummaryText => Trim(e.summary)
    case ReasonCodeText => Trim(e.reasonCode)
    case IssueKeyText => Trim(e.issueKey)
    case EvidenceHashText => Trim(e.evidenceHash)
  }

  function GroupText(g: EventGroup, f: Field): string {
    match f
    case EventTypeText => g.eventType
    case CourseSlugText => g.courseSlug
    case SummaryText => g.summary
    case ReasonCodeText => g.reasonCode
    case IssueKeyText => g.issueKey
    case EvidenceHashText => g.evidenceHash
  }

  function SeverityRank(severity: string): nat {
    var s := ToLower(Trim(severity));
    if s == "critical" then 4
    else if s == "error" then 3
    else if s == "warn" then 2
    else if s == "info" then 1
    else 0
  }

  lemma RankIgnoresSpace(severity: string)
    ensures SeverityRank(Trim(severity)) == SeverityRank(severity)
  {
    TrimTrims(severity);
  }

  /** The texts of the severities rank as the severities do; every other text ranks below. */
  lemma RanksAgree(s: AssignmentModel.Severity, other: string)
    ensures SeverityRank(AssignmentDiagnosis.SeverityText(s)) == s.Rank()
    ensures SeverityRank(other) == 0 <==> ToLower(Trim(other)) !in {"critical", "error", "warn", "info"}
  {
    KnownTextsRank(s);
    hide ToLower, Trim;
  }

  lemma KnownTextsRank(s: AssignmentModel.Severity)
    ensures SeverityRank(AssignmentDiagnosis.SeverityText(s)) == s.Rank()
  {
    var text := AssignmentDiagnosis.SeverityText(s);
    TrimmedIsFixed(text);
    match s
    case Unranked => Folds("", "");
    case Info => Folds("INFO", "info");
    case Warn => Folds("WARN", "warn");
    case Error => Folds("ERROR", "error");
    case Critical => Folds("CRITICAL", "critical");
  }

  lemma Folds(text: string, folded: string)
    requires |text| == |folded| && forall i | 0 <= i < |text| :: LowerChar(text[i]) == folded[i]
    ensures ToLower(text) == folded
  {
  }

  // ----- What a group must say about the events -----

  function OccurrenceOf(e: AssignmentEvent): Occurrence {
    Occurrence(KeyOf(e), e.createdAt)
  }

  function Occurrences(events: seq<AssignmentEvent>): seq<Occurrence> {
    OccurrencesOf(events, OccurrenceOf)
  }

  /** The first text that is not empty, among the events of the key in their order. */
  function FirstFilled(events: seq<AssignmentEvent>, key: string, f: Field): string {
    if events == [] then ""
    else
      var before, last := FirstFilled(events[..|events| - 1], key, f), events[|events| - 1];
      if before == "" && KeyOf(last) == key then TextOf(last, f) else before
  }

  /** The assignment ids of the events of a key, in order, with repetitions. */
  function IdsOf(events: seq<AssignmentEvent>, key: string): seq<string> {
    if events == [] then []
    else
      var before, last := IdsOf(events[..|events| - 1], key), events[|events| - 1];
      if KeyOf(last) == key then before + AlertGroups.Usable([last.assignmentId]) else before
  }

  /** The severity of one event of the key that no event of the key outranks; nothing without one. */
  predicate WorstOf(severity: string, events: seq<AssignmentEvent>, key: string) {
    && (forall e | e in events && KeyOf(e) == key :: SeverityRank(e.severity) <= SeverityRank(severity))
    && ((exists e :: e in events && KeyOf(e) == key) ==>
          exists e :: e in events && KeyOf(e) == key && Trim(e.severity) == severity)
  }

  function SummaryIn(g: EventGroup): Summary {
    Summary(g.key, g.count, g.firstAt, g.latestAt)
  }

  predicate Describes(g: EventGroup, events: seq<AssignmentEvent>) {
    && SummaryIn(g) == SummaryOf(Occurrences(events), g.key)
    && (forall f :: GroupText(g, f) == FirstFilled(events, g.key, f))
    && WorstOf(g.severity, events, g.key)
    && g.assignmentIds == AlertGroups.Distinct(IdsOf(events, g.key))
  }

  // ----- One more event -----

  lemma OneMore(events: seq<AssignmentEvent>, e: AssignmentEvent, key: string)
    ensures var before, now := SummaryOf(Occurrences(events), key), SummaryOf(Occurrences(events + [e]), key);
            now == if KeyOf(e) != key then before
                   else Summary(key, before.count + 1, Earlier(before.first, e.createdAt),
                                Later(before.latest, e.createdAt))
    ensures forall f :: FirstFilled(events + [e], key, f) ==
                        if FirstFilled(events, key, f) == "" && KeyOf(e) == key then TextOf(e, f)
                            else FirstFilled(events, key, f)
    ensures IdsOf(events + [e], key) == IdsOf(events, key) + if KeyOf(e) == key
              then AlertGroups.Usable([e.assignmentId]) else []
  {
    assert (events + [e])[..|events|] == events;
    OneMoreOccurrence(events, e, OccurrenceOf, key);
  }

  lemma {:induction false} NothingYet(events: seq<AssignmentEvent>, key: string)
    requires forall e | e in events :: KeyOf(e) != key
    ensures forall f :: FirstFilled(events, key, f) == ""
    ensures IdsOf(events, key) == []
  {
    hide KeyOf, TextOf, AlertGroups.Usable;
    if events != [] {
      var before, last := events[..|events| - 1], events[|events| - 1];
      assert last in events && forall e | e in before :: e in events;
      NothingYet(before, key);
    }
  }

  lemma OthersStay(g: EventGroup, events: seq<AssignmentEvent>, e: AssignmentEvent)
    requires Describes(g, events) && KeyOf(e) != g.key
    ensures Describes(g, events + [e])
  {
    hide KeyOf, FirstFilled, IdsOf, Occurrences, WorstOf, AlertGroups.Distinct;
    OneMore(events, e, g.key);
    WorstOthersStay(g.severity, events, e, g.key);
    assert IdsOf(events, g.key) + [] == IdsOf(events, g.key);
  }

  lemma WorstGrows(severity: string, events: seq<AssignmentEvent>, e: AssignmentEvent)
    requires WorstOf(severity, events, KeyOf(e))
    requires exists other :: other in events && KeyOf(other) == KeyOf(e)
    ensures WorstOf(if SeverityRank(e.severity) > SeverityRank(severity) then Trim(e.severity) else severity,
                    events + [e], KeyOf(e))
  {
    hide KeyOf, SeverityRank;
    RankIgnoresSpace(e.severity);
    assert forall other | other in events + [e] :: other in events || other == e;
    assert e in events + [e];
    assert forall other | other in events :: other in events + [e];
  }

  lemma WorstStarts(events: seq<AssignmentEvent>, e: AssignmentEvent)
    requires forall other | other in events :: KeyOf(other) != KeyOf(e)
    ensures WorstOf(Trim(e.severity), events + [e], KeyOf(e))
    ensures !(SeverityRank(e.severity) > SeverityRank(Trim(e.severity)))
  {
    hide KeyOf, SeverityRank;
    RankIgnoresSpace(e.severity);
    assert forall other | other in events + [e] :: other in events || other == e;
    assert e in events + [e];
  }

  lemma WorstOthersStay(severity: string, events: seq<AssignmentEvent>, e: AssignmentEvent, key: string)
    requires WorstOf(severity, events, key) && KeyOf(e) != key
    ensures WorstOf(severity, events + [e], key)
  {
    hide KeyOf, SeverityRank;
    assert forall other | other in events + [e] :: other in events || other == e;
    assert forall other | other in events :: other in events + [e];
  }

  // ----- The passes of the source -----

  lemma UsableOne(id: string)
    ensures AlertGroups.Usable([id]) == if Trim(id) == "" || !ValidId(Trim(id)) then [] else [Trim(id)]
  {
    assert [id][..0] == [];
  }

  method AddAssignmentId(known: seq<string>, assignmentId: string, ghost ids: seq<string>) returns (r: seq<string>)
    requires known == AlertGroups.Distinct(ids)
    ensures r == AlertGroups.Distinct(ids + AlertGroups.Usable([assignmentId]))
  {
    hide AlertGroups.Usable, AlertGroups.Distinct, ValidId, Trim;
    var id := Trim(assignmentId);
    UsableOne(assignmentId);
    if id == "" || !ValidId(id) {
      assert ids + [] == ids;
      return known;
    }
    AlertGroups.DistinctGrows(ids, id);
    var i := 0;
    while i < |known|
      invariant 0 <= i <= |known|
      invariant id !in known[..i]
    {
      if known[i] == id {
        return known;
      }
      i := i + 1;
    }
    assert known[..i] == known;
    r := known + [id];
  }

  /** Texts that are still empty are taken from the event. */
  method FillTexts(group: EventGroup, e: AssignmentEvent) returns (g: EventGroup)
    ensures forall f :: GroupText(g, f) == if GroupText(group, f) == "" then TextOf(e, f) else GroupText(group, f)
    ensures g == group.(eventType := g.eventType, courseSlug := g.courseSlug, summary := g.summary,
                        reasonCode := g.reasonCode, issueKey := g.issueKey, evidenceHash := g.evidenceHash)
  {
    hide Trim;
    var eventType, courseSlug, summary := group.eventType, group.courseSlug, group.summary;
    var reasonCode, issueKey, evidenceHash := group.reasonCode, group.issueKey, group.evidenceHash;
    if eventType == "" {
      eventType := Trim(e.eventType);
    }
    if courseSlug == "" {
      courseSlug := Trim(e.courseSlug);
    }
    if summary == "" {
      summary := Trim(e.summary);
    }
    if reasonCode == "" {
      reasonCode := Trim(e.reasonCode);
    }
    if issueKey == "" {
      issueKey := Trim(e.issueKey);
    }
    if evidenceHash == "" {
      evidenceHash := Trim(e.evidenceHash);
    }
    g := group.(eventType := eventType, courseSlug := courseSlug, summary := summary,
                reasonCode := reasonCode, issueKey := issueKey, evidenceHash := evidenceHash);
  }

  method Absorb(group: EventGroup, e: AssignmentEvent, ghost events: seq<AssignmentEvent>) returns (g: EventGroup)
    requires KeyOf(e) == group.key
    requires SummaryIn(group) == SummaryOf(Occurrences(events), group.key)
    requires forall f :: AlertGroups.Filling(GroupText(group, f), FirstFilled(events, group.key, f), TextOf(e, f))
    requires group.assignmentIds == AlertGroups.Distinct(IdsOf(events, group.key))
    requires WorstOf(if SeverityRank(e.severity) > SeverityRank(group.severity) then Trim(e.severity)
                     else group.severity,
                     events + [e], group.key)
    ensures g.key == group.key && Describes(g, events + [e])
  {
    hide KeyOf, AlertGroups.Usable, AlertGroups.Distinct, FirstFilled, IdsOf, CountOf, FirstOf, LatestOf, OccurrencesOf,
      Trim, SeverityRank, WorstOf;
    OneMore(events, e, group.key);
    g := group.(count := group.count + 1);
    if SeverityRank(e.severity) > SeverityRank(g.severity) {
      g := g.(severity := Trim(e.severity));
    }
    ghost var ranked := g;
    g := FillTexts(g, e);
    if e.createdAt != 0 {
      if g.firstAt == 0 || e.createdAt < g.firstAt {
        g := g.(firstAt := e.createdAt);
      }
      if g.latestAt == 0 || e.createdAt > g.latestAt {
        g := g.(latestAt := e.createdAt);
      }
    }
    var ids := AddAssignmentId(g.assignmentIds, e.assignmentId, IdsOf(events, group.key));
    g := g.(assignmentIds := ids);
    forall f ensures GroupText(g, f) == FirstFilled(events + [e], g.key, f) {
      assert GroupText(g, f) == if GroupText(ranked, f) == "" then TextOf(e, f) else GroupText(ranked, f);
      assert AlertGroups.Filling(GroupText(group, f), FirstFilled(events, group.key, f), TextOf(e, f));
    }
  }

  function NewGroup(e: AssignmentEvent): EventGroup {
    EventGroup(KeyOf(e), Trim(e.eventType), Trim(e.severity), Trim(e.courseSlug), Trim(e.summary), Trim(e.reasonCode),
               0, 0, 0, [], "", "")
  }

  predicate GroupNotAfter(a: EventGroup, b: EventGroup) {
    NotAfter(SummaryIn(a), SummaryIn(b))
  }

  /** The loop body: the event joins its group, or opens it. */
  method AddEvent(event: AssignmentEvent, order: seq<string>, groups: map<string, EventGroup>,
                  ghost before: seq<AssignmentEvent>)
    returns (order': seq<string>, groups': map<string, EventGroup>)
    requires Gathered(order, groups, before, OccurrenceOf, SummaryIn, Describes)
    ensures Gathered(order', groups', before + [event], OccurrenceOf, SummaryIn, Describes)
  {
    hide KeyOf, TextOf, AlertGroups.Usable, AlertGroups.Distinct, FirstFilled, IdsOf, CountOf, FirstOf, LatestOf,
      OccurrencesOf, KeysOf, WorstOf, SeverityRank;
    order', groups' := order, groups;
    var key := KeyOf(event);
    OneMoreOccurrence(before, event, OccurrenceOf, key);
    if key != "" {
      var group;
      if key in groups {
        group := groups[key];
        assert Describes(group, before);
        forall f ensures AlertGroups.Filling(GroupText(group, f), FirstFilled(before, key, f), TextOf(event, f)) {
          assert GroupText(group, f) == FirstFilled(before, key, f);
        }
        KeysAreOfEvents(before, OccurrenceOf, key);
        WorstGrows(group.severity, before, event);
      } else {
        group := NewGroup(event);
        order' := order + [key];
        KeysAreOfEvents(before, OccurrenceOf, key);
        NothingYet(before, key);
        NoIdsYet();
        StartTexts(event);
        forall f ensures AlertGroups.Filling(GroupText(group, f), FirstFilled(before, key, f), TextOf(event, f)) {
          assert GroupText(group, f) == "" || GroupText(group, f) == TextOf(event, f);
        }
        WorstStarts(before, event);
      }
      group := Absorb(group, event, before);
      groups' := groups[key := group];
    }
    forall other | other in groups && other != key ensures Describes(groups[other], before + [event]) {
      OthersStay(groups[other], before, event);
    }
    hide Describes;
    GatheredGoesOn(order, groups, before, event, OccurrenceOf, SummaryIn, Describes, groups');
  }

  method GroupRecentAssignmentEvents(events: seq<AssignmentEvent>, limit: int) returns (result: seq<EventGroup>)
    ensures var groups := Limited(Summaries(Occurrences(events)), limit);
            |result| == |groups| && forall i | 0 <= i < |result| :: SummaryIn(result[i]) == groups[i]
    ensures forall g | g in result :: Describes(g, events)
    ensures forall g | g in result ::
              && (exists e :: e in events && KeyOf(e) == g.key && Trim(e.severity) == g.severity)
              && (forall e | e in events && KeyOf(e) == g.key :: SeverityRank(e.severity) <= SeverityRank(g.severity))
    ensures forall g, id | g in result ::
              id in g.assignmentIds <==>
              id != "" && ValidId(id) && exists e :: e in events && KeyOf(e) == g.key && Trim(e.assignmentId) == id
    ensures forall i, j | 0 <= i < j < |result| ::
              && result[i].latestAt >= result[j].latestAt
              && (result[i].latestAt == result[j].latestAt ==> TextLess(result[i].key, result[j].key))
    ensures forall e | e in events && KeyOf(e) != "" && (forall g | g in result :: g.key != KeyOf(e)) ::
              |result| == (if limit <= 0 then 5 else limit) && forall g | g in result :: e.createdAt <= g.latestAt
  {
    hide KeyOf, OccurrencesOf, KeysOf, Sort, Describes, Gathered, Summaries, TextLess;
    var groups: map<string, EventGroup> := map[];
    var order: seq<string> := [];
    NothingGathered(events[..0], OccurrenceOf, SummaryIn, Describes);
    for i := 0 to |events|
      invariant Gathered(order, groups, events[..i], OccurrenceOf, SummaryIn, Describes)
    {
      order, groups := AddEvent(events[i], order, groups, events[..i]);
      assert events[..i + 1] == events[..i] + [events[i]];
    }
    assert events[..|events|] == events;
    result := SortedAndLimited(order, groups, events, OccurrenceOf, SummaryIn, Describes, GroupNotAfter, limit);
    forall g | g in result
      ensures exists e :: e in events && KeyOf(e) == g.key && Trim(e.severity) == g.severity
      ensures forall e | e in events && KeyOf(e) == g.key :: SeverityRank(e.severity) <= SeverityRank(g.severity)
      ensures forall id :: id in g.assignmentIds <==>
                           id != "" && ValidId(id)
                           && exists e :: e in events && KeyOf(e) == g.key && Trim(e.assignmentId) == id
    {
      ShownHasEvents(events, limit, g);
      IdsMeaning(events, g);
      WorstMeaning(events, g);
    }
  }

  lemma ShownHasEvents(events: seq<AssignmentEvent>, limit: int, g: EventGroup)
    requires SummaryIn(g) in Limited(Summaries(Occurrences(events)), limit)
    ensures exists e :: e in events && KeyOf(e) == g.key
  {
    hide KeyOf, Sort, SummaryOf;
    SummariesMatch(Occurrences(events), SummaryIn(g));
    KeysAreOfEvents(events, OccurrenceOf, g.key);
  }

  lemma WorstMeaning(events: seq<AssignmentEvent>, g: EventGroup)
    requires Describes(g, events) && exists e :: e in events && KeyOf(e) == g.key
    ensures exists e :: e in events && KeyOf(e) == g.key && Trim(e.severity) == g.severity
    ensures forall e | e in events && KeyOf(e) == g.key :: SeverityRank(e.severity) <= SeverityRank(g.severity)
  {
    hide KeyOf, SeverityRank, FirstFilled, AlertGroups.Distinct, IdsOf, SummaryOf;
  }

  lemma IdsMeaning(events: seq<AssignmentEvent>, g: EventGroup)
    requires Describes(g, events)
    ensures forall id :: id in g.assignmentIds <==>
                         id != "" && ValidId(id)
                         && exists e :: e in events && KeyOf(e) == g.key && Trim(e.assignmentId) == id
  {
    hide KeyOf, SeverityRank, FirstFilled, WorstOf, SummaryOf, IdsOf;
    forall id ensures id in IdsOf(events, g.key) <==>
                      id != "" && ValidId(id)
                      && exists e :: e in events && KeyOf(e) == g.key && Trim(e.assignmentId) == id
    {
      IdsOfMeaning(events, g.key, id);
    }
  }

  lemma {:induction false} IdsOfMeaning(events: seq<AssignmentEvent>, key: string, id: string)
    ensures id in IdsOf(events, key) <==>
            && id != "" && ValidId(id)
            && exists e :: e in events && KeyOf(e) == key && Trim(e.assignmentId) == id
  {
    hide KeyOf, Trim, ValidId, AlertGroups.Usable;
    if events != [] {
      var before, last := events[..|events| - 1], events[|events| - 1];
      IdsOfMeaning(before, key, id);
      UsableOne(last.assignmentId);
      assert events == before + [last];
    }
  }


  lemma NoIdsYet()
    ensures AlertGroups.Distinct([]) == []
  {
  }

  lemma StartTexts(e: AssignmentEvent)
    ensures forall f :: GroupText(NewGroup(e), f) == "" || GroupText(NewGroup(e), f) == TextOf(e, f)
  {
  }
}

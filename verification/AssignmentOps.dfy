/** A whole assignment poll: collect, run the issue lifecycle, persist. */
module AssignmentOps {
  import opened AssignmentDiagnosis
  import opened AssignmentModel
  import opened Clock
  import opened IssueLifecycle
  import opened Text
  import opened Wrappers

  // ----- What a poll collects -----

  function EventsFor(env: Env, previous: map<string, Snapshot>, s: Snapshot, now: Instant): seq<Event> {
    var key := SnapshotKey(s.courseSlug, s.assignmentID);
    IssueEvents(env, s, Diagnose(env, s, now), now) +
    Diff(env, if key in previous then Some(previous[key]) else None, s, now)
  }

  function EventsOf(env: Env, previous: map<string, Snapshot>, fetched: seq<Snapshot>, now: Instant): seq<Event> {
    if fetched == [] then []
    else EventsOf(env, previous, fetched[..|fetched| - 1], now) + EventsFor(env, previous, fetched[|fetched| - 1], now)
  }

  function Keyed(fetched: seq<Snapshot>): map<string, Snapshot> {
    if fetched == [] then map[]
    else
      var last := fetched[|fetched| - 1];
      Keyed(fetched[..|fetched| - 1])[SnapshotKey(last.courseSlug, last.assignmentID) := last]
  }

  function CountedDiagnoses(ds: seq<Diagnosis>): nat {
    if ds == [] then 0
    else CountedDiagnoses(ds[..|ds| - 1]) + if ds[|ds| - 1].shouldCount then 1 else 0
  }

  /** The `AssignmentIssues` counter after a list of snapshots. */
  function IssueCount(env: Env, fetched: seq<Snapshot>, now: Instant): nat {
    if fetched == [] then 0
    else IssueCount(env, fetched[..|fetched| - 1], now) + CountedDiagnoses(Diagnose(env, fetched[|fetched| - 1], now))
  }

  function IssueEventCount(events: seq<Event>): nat {
    if events == [] then 0
    else IssueEventCount(events[..|events| - 1]) + if events[|events| - 1].kind.IsIssue() then 1 else 0
  }

  lemma {:induction false} IssueEventCountAppend(a: seq<Event>, b: seq<Event>)
    ensures IssueEventCount(a + b) == IssueEventCount(a) + IssueEventCount(b)
  {
    if b == [] {
      assert a + b == a;
    } else {
      assert (a + b)[..|a + b| - 1] == a + b[..|b| - 1];
      IssueEventCountAppend(a, b[..|b| - 1]);
    }
  }

  // ----- What the lifecycle does with the events -----

  function GroupKey(e: Event): string {
    Join([e.courseSlug, e.kind.Label(), SeverityText(e.severity), "WEB_ADMIN_API"], NUL)
  }

  /** Issues share a digest group exactly if they agree in course, type and severity. */
  lemma GroupKeysAgree(a: Event, b: Event)
    requires a.kind.IsIssue() && b.kind.IsIssue() && NUL !in a.courseSlug && NUL !in b.courseSlug
    ensures GroupKey(a) == GroupKey(b) <==> a.courseSlug == b.courseSlug && a.kind == b.kind && a.severity == b.severity
  {
    IssueLabelsArePlain(a.kind);
    IssueLabelsArePlain(b.kind);
    SeverityTextsDiffer(a.severity, b.severity);
    AllLabelsDiffer(a.kind, b.kind);
    hide EventKind.Label, SeverityText, Join, Split;
    var x := [a.courseSlug, a.kind.Label(), SeverityText(a.severity), "WEB_ADMIN_API"];
    var y := [b.courseSlug, b.kind.Label(), SeverityText(b.severity), "WEB_ADMIN_API"];
    SplitJoin(x, NUL);
    SplitJoin(y, NUL);
    if x == y {
      assert x[0] == y[0] && x[1] == y[1] && x[2] == y[2];
    }
  }

  lemma IssueLabelsArePlain(k: EventKind)
    requires k.IsIssue()
    ensures NUL !in k.Label()
  {
  }

  lemma SeverityTextsDiffer(a: Severity, b: Severity)
    ensures SeverityText(a) == SeverityText(b) <==> a == b
    ensures NUL !in SeverityText(a) && NUL !in SeverityText(b)
  {
    if a != b && SeverityText(a) != "" && SeverityText(b) != "" {
      assert SeverityText(a)[0] != SeverityText(b)[0];
    }
  }

  function Enrich(e: Event, issue: Issue): Event {
    e.(phase := issue.phase, firstDetectedAt := issue.firstDetectedAt, lastDetectedAt := issue.lastDetectedAt,
       lastNotifiedAt := issue.lastNotifiedAt, notifyCount := issue.notifyCount)
  }

  /** A non-issue event sent less than the cooldown ago is dropped. */
  predicate CoolingDown(sentAt: map<string, Instant>, cooldown: nat, e: Event, now: Instant) {
    e.fingerprint in sentAt && sentAt[e.fingerprint] != 0 && now < sentAt[e.fingerprint] + cooldown
  }

  /** The outcome of the lifecycle loop: issue states to store, events kept, and for each digest
      group the number of suppressed issues. */
  datatype Outcome = Outcome(states: map<string, Issue>, kept: seq<Event>, suppressed: multiset<string>)

  function Take(issues: map<string, Issue>, sentAt: map<string, Instant>, cooldown: nat, o: Outcome, e: Event,
      now: Instant): Outcome {
    if e.kind.IsIssue() then
      var r := ApplyIssueState(Stored(issues, e.issueKey), e, now);
      Outcome(o.states[e.issueKey := r.0],
              if r.1 then o.kept + [Enrich(e, r.0)] else o.kept,
              if !r.1 && e.shouldCount then o.suppressed + multiset{GroupKey(e)} else o.suppressed)
    else if CoolingDown(sentAt, cooldown, e, now) then o
    else o.(kept := o.kept + [e])
  }

  function TakeAll(issues: map<string, Issue>, sentAt: map<string, Instant>, cooldown: nat, events: seq<Event>,
      now: Instant): Outcome {
    if events == [] then Outcome(map[], [], multiset{})
    else Take(issues, sentAt, cooldown, TakeAll(issues, sentAt, cooldown, events[..|events| - 1], now),
              events[|events| - 1], now)
  }

  predicate ResolvesNow(issues: map<string, Issue>, observed: set<string>, snapshots: map<string, Snapshot>,
                        key: string)
    requires key in issues
  {
    && key !in observed
    && issues[key].issueKey != "" && issues[key].phase != Resolved
    && SnapshotKey(issues[key].courseSlug, issues[key].assignmentID) in snapshots
  }

  /** The issues whose assignment was fetched without the issue being observed, as resolved. */
  function ResolvedNow(issues: map<string, Issue>, observed: set<string>, snapshots: map<string, Snapshot>,
      now: Instant): map<string, Issue> {
    map key | key in issues && ResolvesNow(issues, observed, snapshots, key) :: ResolvedIssue(issues[key], now)
  }

  /** The stored issues after a poll that fetched these snapshots. */
  function PolledIssues(env: Env, issues: map<string, Issue>, sentAt: map<string, Instant>, baseline: bool,
                        previous: map<string, Snapshot>, fetched: seq<Snapshot>, now: Instant): map<string, Issue>
  {
    var events := if baseline then EventsOf(env, previous, fetched, now) else [];
    var states := TakeAll(issues, sentAt, env.Cooldown(), events, now).states;
    issues + states + ResolvedNow(issues, states.Keys, Keyed(fetched), now)
  }

  /** The events a poll keeps and the issues it suppresses. */
  function Reported(env: Env, issues: map<string, Issue>, sentAt: map<string, Instant>, baseline: bool,
                    previous: map<string, Snapshot>, fetched: seq<Snapshot>, now: Instant): Outcome
  {
    var events := if baseline then EventsOf(env, previous, fetched, now) else [];
    TakeAll(issues, sentAt, env.Cooldown(), events, now).(states := map[])
  }

  /** The send times after a poll: every kept event that is no issue is stamped. */
  function Stamped(sentAt: map<string, Instant>, events: seq<Event>, now: Instant): map<string, Instant> {
    if events == [] then sentAt
    else
      var before, last := Stamped(sentAt, events[..|events| - 1], now), events[|events| - 1];
      if last.kind.IsIssue() then before else before[last.fingerprint := now]
  }

  const RECENT_LIMIT := 20

  /** The recent events, newest first. */
  function Pushed(recent: seq<Event>, events: seq<Event>): seq<Event> {
    if events == [] then recent else [events[|events| - 1]] + Pushed(recent, events[..|events| - 1])
  }

  function Recent(recent: seq<Event>, events: seq<Event>): (r: seq<Event>)
    ensures |r| <= RECENT_LIMIT
  {
    var pushed := Pushed(recent, events);
    if |pushed| > RECENT_LIMIT then pushed[..RECENT_LIMIT] else pushed
  }

  // ----- Conservation of issue counts -----

  lemma {:induction false} TakeAllConserves(issues: map<string, Issue>, sentAt: map<string, Instant>,
      cooldown: nat, events: seq<Event>, now: Instant)
    requires forall e | e in events && e.kind.IsIssue() :: e.shouldCount
    ensures var o := TakeAll(issues, sentAt, cooldown, events, now);
            IssueEventCount(o.kept) + |o.suppressed| == IssueEventCount(events)
  {
    if events != [] {
      var before, e := events[..|events| - 1], events[|events| - 1];
      TakeAllConserves(issues, sentAt, cooldown, before, now);
      var kept := TakeAll(issues, sentAt, cooldown, before, now).kept;
      assert e in events;
      IssueEventCountAppend(kept, [Enrich(e, ApplyIssueState(Stored(issues, e.issueKey), e, now).0)]);
      IssueEventCountAppend(kept, [e]);
      OneEvent(e);
      OneEvent(Enrich(e, ApplyIssueState(Stored(issues, e.issueKey), e, now).0));
    }
  }

  lemma OneEvent(e: Event)
    ensures IssueEventCount([e]) == if e.kind.IsIssue() then 1 else 0
  {
    assert [e][..0] == [];
  }

  lemma {:induction false} NoIssueEvents(events: seq<Event>)
    requires forall e | e in events :: !e.kind.IsIssue()
    ensures IssueEventCount(events) == 0
  {
    if events != [] {
      assert events[|events| - 1] in events;
      NoIssueEvents(events[..|events| - 1]);
    }
  }

  lemma {:induction false} AllIssueEvents(events: seq<Event>)
    requires forall e | e in events :: e.kind.IsIssue()
    ensures IssueEventCount(events) == |events|
  {
    if events != [] {
      assert events[|events| - 1] in events;
      AllIssueEvents(events[..|events| - 1]);
    }
  }

  lemma {:induction false} AllCounted(ds: seq<Diagnosis>)
    requires forall d | d in ds :: d.shouldCount
    ensures CountedDiagnoses(ds) == |ds|
  {
    if ds != [] {
      assert ds[|ds| - 1] in ds;
      AllCounted(ds[..|ds| - 1]);
    }
  }

  lemma IssueEventsAreCounted(env: Env, s: Snapshot, now: Instant)
    ensures forall e | e in IssueEvents(env, s, Diagnose(env, s, now), now) :: e.kind.IsIssue() && e.shouldCount
  {
    hide Diagnose, IssueKey, EvidenceHash;
    DiagnosesAreFewAndDistinct(env, s, now);
  }

  lemma {:induction false} EventsMatchDiagnoses(env: Env, previous: map<string, Snapshot>, fetched: seq<Snapshot>,
                                                now: Instant)
    ensures IssueEventCount(EventsOf(env, previous, fetched, now)) == IssueCount(env, fetched, now)
    ensures forall e | e in EventsOf(env, previous, fetched, now) && e.kind.IsIssue() :: e.shouldCount
  {
    hide Diagnose, Diff, IssueEvents, MakeIssueEvent, SnapshotKey;
    if fetched != [] {
      var before, s := fetched[..|fetched| - 1], fetched[|fetched| - 1];
      EventsMatchDiagnoses(env, previous, before, now);
      var ds := Diagnose(env, s, now);
      var key := SnapshotKey(s.courseSlug, s.assignmentID);
      var issueEvents := IssueEvents(env, s, ds, now);
      var diff := Diff(env, if key in previous then Some(previous[key]) else None, s, now);
      DiagnosesAreFewAndDistinct(env, s, now);
      AllCounted(ds);
      IssueEventsAreCounted(env, s, now);
      AllIssueEvents(issueEvents);
      NoIssueEvents(diff);
      IssueEventCountAppend(issueEvents, diff);
      IssueEventCountAppend(EventsOf(env, previous, before, now), issueEvents + diff);
    }
  }

  /** Conservation: every counted diagnosis of a poll is either an issue event that is kept or one
      suppressed in its digest group. */
  lemma IssueCountsAreConserved(env: Env, issues: map<string, Issue>, sentAt: map<string, Instant>,
                                previous: map<string, Snapshot>, fetched: seq<Snapshot>, now: Instant)
    ensures var o := TakeAll(issues, sentAt, env.Cooldown(), EventsOf(env, previous, fetched, now), now);
            IssueCount(env, fetched, now) == IssueEventCount(o.kept) + |o.suppressed|
  {
    EventsMatchDiagnoses(env, previous, fetched, now);
    TakeAllConserves(issues, sentAt, env.Cooldown(), EventsOf(env, previous, fetched, now), now);
  }

  lemma NonIssueEventTaken(issues: map<string, Issue>, sentAt: map<string, Instant>, cooldown: nat, e: Event,
                           now: Instant)
    requires !e.kind.IsIssue()
    ensures var o := TakeAll(issues, sentAt, cooldown, [e], now);
            && o.states == map[] && IssueEventCount(o.kept) == 0 && |o.suppressed| == 0
  {
    assert [e][..0] == [];
    OneEvent(e);
  }

  // ----- Resolution needs evidence -----

  /** The stored issues are filed under their own key, with slugs that keep keys unambiguous. */
  ghost predicate WellKeyed(issues: map<string, Issue>) {
    forall key | key in issues ::
      && (issues[key].kind.IsIssue() || issues[key].kind.GradingFailed?)
      && ':' !in issues[key].courseSlug
      && issues[key].issueKey == key == IssueKey(issues[key].kind, issues[key].courseSlug, issues[key].assignmentID)
  }

  ghost predicate PlainSlugs(fetched: seq<Snapshot>) {
    forall s | s in fetched :: ':' !in s.courseSlug
  }

  ghost predicate FetchedFor(issue: Issue, fetched: seq<Snapshot>) {
    exists s :: s in fetched && s.courseSlug == issue.courseSlug && s.assignmentID == issue.assignmentID
  }

  ghost predicate DiagnosedFor(env: Env, issue: Issue, fetched: seq<Snapshot>, now: Instant) {
    exists s :: && s in fetched && s.courseSlug == issue.courseSlug && s.assignmentID == issue.assignmentID
                && Yields(env, s, now, issue.kind)
  }

  ghost predicate IsDiagnosisOf(env: Env, s: Snapshot, now: Instant, e: Event) {
    exists d :: d in Diagnose(env, s, now) && e == MakeIssueEvent(env, s, d, now)
  }

  lemma IssueEventsComeFromDiagnoses(env: Env, previous: map<string, Snapshot>, fetched: seq<Snapshot>, now: Instant,
                                     e: Event)
    ensures e in EventsOf(env, previous, fetched, now) && e.kind.IsIssue() ==>
              exists s, d :: s in fetched && d in Diagnose(env, s, now) && e == MakeIssueEvent(env, s, d, now)
    ensures (exists s, d :: s in fetched && d in Diagnose(env, s, now) && e == MakeIssueEvent(env, s, d, now)) ==>
              e in EventsOf(env, previous, fetched, now)
  {
    hide EventsOf, Diagnose, MakeIssueEvent;
    IssueEventsAreOfSnapshots(env, previous, fetched, now, e);
    if s, d :| s in fetched && d in Diagnose(env, s, now) && e == MakeIssueEvent(env, s, d, now) {
      assert IsDiagnosisOf(env, s, now, e);
    }
  }

  lemma {:induction false} IssueEventsAreOfSnapshots(env: Env, previous: map<string, Snapshot>, fetched: seq<Snapshot>,
                                                     now: Instant, e: Event)
    ensures e in EventsOf(env, previous, fetched, now) && e.kind.IsIssue() ==>
              exists s :: s in fetched && IsDiagnosisOf(env, s, now, e)
    ensures (exists s :: s in fetched && IsDiagnosisOf(env, s, now, e)) ==> e in EventsOf(env, previous, fetched, now)
  {
    hide EventsFor, IsDiagnosisOf;
    if fetched != [] {
      var before, last := fetched[..|fetched| - 1], fetched[|fetched| - 1];
      IssueEventsAreOfSnapshots(env, previous, before, now, e);
      assert last in fetched;
      assert forall s | s in before :: s in fetched;
      assert forall s | s in fetched :: s in before || s == last;
      SnapshotEvents(env, previous, last, now, e);
    }
  }

  lemma SnapshotEvents(env: Env, previous: map<string, Snapshot>, s: Snapshot, now: Instant, e: Event)
    ensures e in EventsFor(env, previous, s, now) && e.kind.IsIssue() ==> IsDiagnosisOf(env, s, now, e)
    ensures IsDiagnosisOf(env, s, now, e) ==> e in EventsFor(env, previous, s, now)
  {
    hide MakeIssueEvent, Diagnose, Diff, SnapshotKey;
    var ds := Diagnose(env, s, now);
    var events := IssueEvents(env, s, ds, now);
    forall d | d in ds && e == MakeIssueEvent(env, s, d, now) ensures e in events {
      var i :| 0 <= i < |ds| && ds[i] == d;
      assert events[i] == e;
    }
  }

  lemma StatesAfterLast(issues: map<string, Issue>, sentAt: map<string, Instant>, cooldown: nat, events: seq<Event>,
                        now: Instant)
    requires events != []
    ensures var before, last := TakeAll(issues, sentAt, cooldown, events[..|events| - 1], now).states,
              events[|events| - 1];
            TakeAll(issues, sentAt, cooldown, events, now).states ==
            if last.kind.IsIssue() then before[last.issueKey := ApplyIssueState(Stored(issues, last.issueKey), last,
                now).0] else before
  {
    hide ApplyIssueState, GroupKey, Enrich, CoolingDown, Stored;
  }

  lemma {:induction false} TakeAllObserves(issues: map<string, Issue>, sentAt: map<string, Instant>,
      cooldown: nat, events: seq<Event>, now: Instant, key: string)
    ensures var states := TakeAll(issues, sentAt, cooldown, events, now).states;
            && (key in states ==>
                  exists e :: && e in events && e.kind.IsIssue() && e.issueKey == key
                              && states[key] == ApplyIssueState(Stored(issues, key), e, now).0)
            && ((exists e :: e in events && e.kind.IsIssue() && e.issueKey == key) ==> key in states)
  {
    hide ApplyIssueState, GroupKey, Enrich, CoolingDown, Stored;
    if events != [] {
      var before, last := events[..|events| - 1], events[|events| - 1];
      TakeAllObserves(issues, sentAt, cooldown, before, now, key);
      StatesAfterLast(issues, sentAt, cooldown, events, now);
      hide TakeAll;
      assert last in events;
      assert forall e | e in before :: e in events;
      assert forall e | e in events :: e in before || e == last;
    }
  }

  lemma {:induction false} KeyedSnapshots(fetched: seq<Snapshot>, key: string)
    ensures key in Keyed(fetched) <==> exists s :: s in fetched && SnapshotKey(s.courseSlug, s.assignmentID) == key
  {
    if fetched != [] {
      var before, last := fetched[..|fetched| - 1], fetched[|fetched| - 1];
      KeyedSnapshots(before, key);
      assert last in fetched;
      assert forall s | s in before :: s in fetched;
      assert forall s | s in fetched :: s in before || s == last;
    }
  }

  /** A stored issue is observed by a poll with the baseline set exactly when it is diagnosed again. */
  lemma ObservedIffDiagnosed(env: Env, issues: map<string, Issue>, sentAt: map<string, Instant>,
                             previous: map<string, Snapshot>,
                             fetched: seq<Snapshot>, now: Instant, key: string)
    requires WellKeyed(issues) && PlainSlugs(fetched) && key in issues
    ensures key in TakeAll(issues, sentAt, env.Cooldown(), EventsOf(env, previous, fetched, now), now).states <==>
            DiagnosedFor(env, issues[key], fetched, now)
  {
    var events, issue := EventsOf(env, previous, fetched, now), issues[key];
    TakeAllObserves(issues, sentAt, env.Cooldown(), events, now, key);
    if e :| e in events && e.kind.IsIssue() && e.issueKey == key {
      IssueEventsComeFromDiagnoses(env, previous, fetched, now, e);
      var s, d :| s in fetched && d in Diagnose(env, s, now) && e == MakeIssueEvent(env, s, d, now);
      IssueKeysAgree(d.kind, s.courseSlug, s.assignmentID, issue.kind, issue.courseSlug, issue.assignmentID);
      assert Yields(env, s, now, issue.kind);
    }
    if s :| && s in fetched && s.courseSlug == issue.courseSlug && s.assignmentID == issue.assignmentID
            && Yields(env, s, now, issue.kind) {
      var d :| d in Diagnose(env, s, now) && d.kind == issue.kind;
      DiagnosesAreFewAndDistinct(env, s, now);
      IssueEventsComeFromDiagnoses(env, previous, fetched, now, MakeIssueEvent(env, s, d, now));
    }
  }

  lemma FetchedIffKeyed(issues: map<string, Issue>, fetched: seq<Snapshot>, key: string)
    requires WellKeyed(issues) && PlainSlugs(fetched) && key in issues
    ensures SnapshotKey(issues[key].courseSlug, issues[key].assignmentID) in Keyed(fetched) <==>
              FetchedFor(issues[key], fetched)
  {
    var issue := issues[key];
    KeyedSnapshots(fetched, SnapshotKey(issue.courseSlug, issue.assignmentID));
    forall s | s in fetched
      ensures SnapshotKey(s.courseSlug, s.assignmentID) == SnapshotKey(issue.courseSlug, issue.assignmentID) <==>
              s.courseSlug == issue.courseSlug && s.assignmentID == issue.assignmentID
    {
      SnapshotKeysAgree(s.courseSlug, s.assignmentID, issue.courseSlug, issue.assignmentID);
    }
  }

  lemma NothingTaken(issues: map<string, Issue>, sentAt: map<string, Instant>, cooldown: nat, now: Instant)
    ensures TakeAll(issues, sentAt, cooldown, [], now) == Outcome(map[], [], multiset{})
  {
  }

  lemma KeysAreNonempty(issue: Issue)
    requires issue.issueKey == IssueKey(issue.kind, issue.courseSlug, issue.assignmentID)
    ensures issue.issueKey != ""
  {
    assert issue.issueKey[0] == 'a';
  }

  /** Resolution needs evidence. An unresolved issue becomes resolved in a poll exactly when its
      assignment was fetched and is no longer diagnosed with its type, or the baseline is not yet
      set; an issue whose assignment was not fetched is left as it was. */
  lemma ResolvedExactlyOnEvidence(env: Env, issues: map<string, Issue>, sentAt: map<string, Instant>, baseline: bool,
                                  previous: map<string, Snapshot>, fetched: seq<Snapshot>, now: Instant, key: string)
    requires WellKeyed(issues) && PlainSlugs(fetched) && key in issues && issues[key].phase != Resolved
    ensures var after := PolledIssues(env, issues, sentAt, baseline, previous, fetched, now);
            && key in after
            && (after[key].phase == Resolved <==>
                FetchedFor(issues[key], fetched) && (baseline ==> !DiagnosedFor(env, issues[key], fetched, now)))
            && (!FetchedFor(issues[key], fetched) ==> after[key] == issues[key])
            && (after[key].phase == Resolved ==> after[key] == ResolvedIssue(issues[key], now))
  {
    hide EventsOf, Keyed, TakeAll, ApplyIssueState, IssueKey, SnapshotKey, Diagnose;
    var events := if baseline then EventsOf(env, previous, fetched, now) else [];
    var states := TakeAll(issues, sentAt, env.Cooldown(), events, now).states;
    FetchedIffKeyed(issues, fetched, key);
    TakeAllObserves(issues, sentAt, env.Cooldown(), events, now, key);
    if baseline {
      ObservedIffDiagnosed(env, issues, sentAt, previous, fetched, now, key);
    } else {
      NothingTaken(issues, sentAt, env.Cooldown(), now);
    }
    forall e ensures ApplyIssueState(Stored(issues, key), e, now).0.phase != Resolved {
      ObservedIsUnresolved(Stored(issues, key), e, now);
    }
    KeysAreNonempty(issues[key]);
  }

  /** A resolved issue stays resolved unless it is diagnosed again. */
  lemma ReopenedExactlyOnDiagnosis(env: Env, issues: map<string, Issue>, sentAt: map<string, Instant>,
                                   previous: map<string, Snapshot>, fetched: seq<Snapshot>, now: Instant, key: string)
    requires WellKeyed(issues) && PlainSlugs(fetched) && key in issues && issues[key].phase == Resolved
    ensures var after := PolledIssues(env, issues, sentAt, true, previous, fetched, now);
            && key in after
            && (after[key].phase != Resolved <==> DiagnosedFor(env, issues[key], fetched, now))
            && (after[key].phase == Resolved ==> after[key] == issues[key])
  {
    hide EventsOf, Keyed, TakeAll, ApplyIssueState, IssueKey, SnapshotKey, Diagnose;
    forall e ensures ApplyIssueState(Stored(issues, key), e, now).0.phase != Resolved {
      ObservedIsUnresolved(Stored(issues, key), e, now);
    }
    TakeAllObserves(issues, sentAt, env.Cooldown(), EventsOf(env, previous, fetched, now), now, key);
    ObservedIffDiagnosed(env, issues, sentAt, previous, fetched, now, key);
  }

  lemma ObservedKeepsIdentity(issue: Issue, e: Event, now: Instant)
    ensures var after := ApplyIssueState(issue, e, now).0;
            after.issueKey == e.issueKey && after.kind == e.kind && after.courseSlug == e.courseSlug
                && after.assignmentID == e.assignmentID
  {
  }

  /** Polls keep the stored issues filed under their own keys. */
  lemma PollKeepsWellKeyed(env: Env, issues: map<string, Issue>, sentAt: map<string, Instant>, baseline: bool,
                           previous: map<string, Snapshot>, fetched: seq<Snapshot>, now: Instant)
    requires WellKeyed(issues) && PlainSlugs(fetched)
    ensures WellKeyed(PolledIssues(env, issues, sentAt, baseline, previous, fetched, now))
  {
    hide EventsOf, Keyed, TakeAll, IssueKey, SnapshotKey, Diagnose, ApplyIssueState;
    var events := if baseline then EventsOf(env, previous, fetched, now) else [];
    var after := PolledIssues(env, issues, sentAt, baseline, previous, fetched, now);
    var states := TakeAll(issues, sentAt, env.Cooldown(), events, now).states;
    forall key | key in after
      ensures && (after[key].kind.IsIssue() || after[key].kind.GradingFailed?)
              && ':' !in after[key].courseSlug
              && after[key].issueKey == key == IssueKey(after[key].kind, after[key].courseSlug, after[key].assignmentID)
    {
      TakeAllObserves(issues, sentAt, env.Cooldown(), events, now, key);
      if key in states {
        var e :| && e in events && e.kind.IsIssue() && e.issueKey == key
                 && states[key] == ApplyIssueState(Stored(issues, key), e, now).0;
        NothingTaken(issues, sentAt, env.Cooldown(), now);
        IssueEventsComeFromDiagnoses(env, previous, fetched, now, e);
        var s, d :| s in fetched && d in Diagnose(env, s, now) && e == MakeIssueEvent(env, s, d, now);
        ObservedKeepsIdentity(Stored(issues, key), e, now);
        assert key !in ResolvedNow(issues, states.Keys, Keyed(fetched), now);
        assert after[key] == states[key];
      } else {
        assert after[key] == issues[key] || after[key] == ResolvedIssue(issues[key], now);
      }
    }
  }

  /** Operator commands keep them so as well. */
  lemma CommandsKeepWellKeyed(issues: map<string, Issue>, who: Identity, step: Step)
    requires WellKeyed(issues) && (step.Acknowledge? || step.Unacknowledge?)
    requires (who.kind.IsIssue() || who.kind.GradingFailed?) && ':' !in who.courseSlug
    ensures WellKeyed(issues[who.Key() := Apply(who, Stored(issues, who.Key()), step)])
  {
  }

  /** In one poll of distinct assignments an issue is observed by one event only, so a poll is one
      step of the issue's run. */
  lemma ObservedOnce(env: Env, previous: map<string, Snapshot>, fetched: seq<Snapshot>, now: Instant, e: Event,
                     e': Event)
    requires PlainSlugs(fetched)
    requires forall s, s' | s in fetched && s' in fetched && s.courseSlug == s'.courseSlug
               && s.assignmentID == s'.assignmentID :: s == s'
    requires e in EventsOf(env, previous, fetched, now) && e.kind.IsIssue()
    requires e' in EventsOf(env, previous, fetched, now) && e'.kind.IsIssue()
    ensures e.issueKey == e'.issueKey <==> e == e'
  {
    hide EventsOf, Diagnose, IssueKey, EvidenceHash;
    IssueEventsComeFromDiagnoses(env, previous, fetched, now, e);
    IssueEventsComeFromDiagnoses(env, previous, fetched, now, e');
    var s, d :| s in fetched && d in Diagnose(env, s, now) && e == MakeIssueEvent(env, s, d, now);
    var s', d' :| s' in fetched && d' in Diagnose(env, s', now) && e' == MakeIssueEvent(env, s', d', now);
    IssueKeysAgree(d.kind, s.courseSlug, s.assignmentID, d'.kind, s'.courseSlug, s'.assignmentID);
    DiagnosesAreFewAndDistinct(env, s, now);
    if e.issueKey == e'.issueKey {
      assert s == s' && d.kind == d'.kind;
    }
  }

  // ----- Many polls -----

  /** What one poll of a run reads beside the stored issues. */
  datatype Poll = Poll(sentAt: map<string, Instant>, previous: map<string, Snapshot>, fetched: seq<Snapshot>,
                       now: Instant)

  function AfterPolls(env: Env, issues: map<string, Issue>, polls: seq<Poll>): map<string, Issue>
    decreases |polls|
  {
    if polls == [] then issues
    else
      var p := polls[0];
      AfterPolls(env, PolledIssues(env, issues, p.sentAt, true, p.previous, p.fetched, p.now), polls[1..])
  }

  /** The poll observes the issue, and only with the severity and evidence of `event`. */
  ghost predicate ObservesUnchanged(env: Env, p: Poll, event: Event) {
    var events := EventsOf(env, p.previous, p.fetched, p.now);
    && (exists e :: e in events && e.kind.IsIssue() && e.issueKey == event.issueKey)
    && forall e | e in events && e.kind.IsIssue() && e.issueKey == event.issueKey ::
         e.severity == event.severity && e.evidenceHash == event.evidenceHash
  }

  lemma PollObserves(env: Env, issues: map<string, Issue>, p: Poll, event: Event) returns (e: Event)
    requires ObservesUnchanged(env, p, event)
    ensures e.issueKey == event.issueKey && e.severity == event.severity && e.evidenceHash == event.evidenceHash
    ensures Stored(PolledIssues(env, issues, p.sentAt, true, p.previous, p.fetched, p.now), event.issueKey) ==
            ApplyIssueState(Stored(issues, event.issueKey), e, p.now).0
  {
    hide EventsOf, Keyed, TakeAll, ApplyIssueState;
    var events := EventsOf(env, p.previous, p.fetched, p.now);
    var states := TakeAll(issues, p.sentAt, env.Cooldown(), events, p.now).states;
    TakeAllObserves(issues, p.sentAt, env.Cooldown(), events, p.now, event.issueKey);
    e :| && e in events && e.kind.IsIssue() && e.issueKey == event.issueKey
         && states[event.issueKey] == ApplyIssueState(Stored(issues, event.issueKey), e, p.now).0;
    assert event.issueKey !in ResolvedNow(issues, states.Keys, Keyed(p.fetched), p.now);
  }

  /** Whole polls notify once: over any number of polls that keep observing an issue unchanged, its
      notification count grows by at most one, and not at all unless it was armed. */
  lemma {:induction false} PollsNotifyOnce(env: Env, issues: map<string, Issue>, polls: seq<Poll>, event: Event)
    requires event.issueKey != ""
    requires forall i | 0 <= i < |polls| :: ObservesUnchanged(env, polls[i], event)
    ensures Stored(AfterPolls(env, issues, polls), event.issueKey).notifyCount <=
            Stored(issues, event.issueKey).notifyCount + if Armed(Stored(issues, event.issueKey), event) then 1 else 0
    decreases |polls|
  {
    hide PolledIssues, ApplyIssueState;
    if polls != [] {
      var p := polls[0];
      var after := PolledIssues(env, issues, p.sentAt, true, p.previous, p.fetched, p.now);
      var e := PollObserves(env, issues, p, event);
      ObservationSpendsArming(Stored(issues, event.issueKey), e, event, p.now);
      assert forall i | 0 <= i < |polls[1..]| :: polls[1..][i] == polls[i + 1];
      PollsNotifyOnce(env, after, polls[1..], event);
    }
  }

  // ----- Changes are reported once a cooldown -----

  lemma {:induction false} ChangesKept(issues: map<string, Issue>, sentAt: map<string, Instant>, cooldown: nat,
                                       events: seq<Event>, now: Instant, e: Event)
    requires !e.kind.IsIssue()
    ensures e in TakeAll(issues, sentAt, cooldown, events, now).kept <==>
            && e in events
            && (e.fingerprint in sentAt && sentAt[e.fingerprint] != 0 ==> now >= sentAt[e.fingerprint] + cooldown)
  {
    hide ApplyIssueState, GroupKey, Stored;
    if events != [] {
      var before, last := events[..|events| - 1], events[|events| - 1];
      ChangesKept(issues, sentAt, cooldown, before, now, e);
      assert events == before + [last];
      assert last.kind.IsIssue() ==> Enrich(last, ApplyIssueState(Stored(issues, last.issueKey), last, now).0) != e;
    }
  }

  lemma {:induction false} StampedMeaning(sentAt: map<string, Instant>, events: seq<Event>, now: Instant, f: string)
    ensures var after, kept := Stamped(sentAt, events, now), exists e ::
              e in events && !e.kind.IsIssue() && e.fingerprint == f;
            && (f in after <==> f in sentAt || kept)
            && (f in after ==> after[f] == if kept then now else sentAt[f])
  {
    if events != [] {
      var before, last := events[..|events| - 1], events[|events| - 1];
      StampedMeaning(sentAt, before, now, f);
      assert events == before + [last];
    }
  }

  /** The changes that one poll of a run collects, and when. */
  datatype ChangePoll = ChangePoll(issues: map<string, Issue>, events: seq<Event>, now: Instant)

  function KeptOf(sentAt: map<string, Instant>, cooldown: nat, c: ChangePoll): seq<Event> {
    TakeAll(c.issues, sentAt, cooldown, c.events, c.now).kept
  }

  function SentAfter(sentAt: map<string, Instant>, cooldown: nat, polls: seq<ChangePoll>): map<string, Instant> {
    if polls == [] then sentAt
    else
      var before, last := SentAfter(sentAt, cooldown, polls[..|polls| - 1]), polls[|polls| - 1];
      Stamped(before, KeptOf(before, cooldown, last), last.now)
  }

  /** A change with this fingerprint is kept by the k-th poll. */
  ghost predicate Kept(sentAt: map<string, Instant>, cooldown: nat, polls: seq<ChangePoll>, k: nat, f: string)
    requires k < |polls|
  {
    exists e :: e in KeptOf(SentAfter(sentAt, cooldown, polls[..k]), cooldown, polls[k])
                && !e.kind.IsIssue() && e.fingerprint == f
  }

  ghost predicate NowsPass(polls: seq<ChangePoll>) {
    && (forall k | 0 <= k < |polls| :: polls[k].now > 0)
    && forall j, k | 0 <= j < k < |polls| :: polls[j].now <= polls[k].now
  }

  /** The stored time is that of the last poll that kept the change, or the one the run began with. */
  ghost predicate StampsAgree(sentAt: map<string, Instant>, cooldown: nat, polls: seq<ChangePoll>, f: string) {
    var after := SentAfter(sentAt, cooldown, polls);
    && (forall j | 0 <= j < |polls| && Kept(sentAt, cooldown, polls, j, f) :: f in after && after[f] >= polls[j].now)
    && (f in sentAt && sentAt[f] != 0 ==> f in after && after[f] >= sentAt[f])
    && (f in after && after[f] != 0 ==>
          || (f in sentAt && after[f] == sentAt[f])
          || exists j :: 0 <= j < |polls| && Kept(sentAt, cooldown, polls, j, f) && after[f] == polls[j].now)
  }

  lemma {:induction false} StampsTellTheLast(sentAt: map<string, Instant>, cooldown: nat, polls: seq<ChangePoll>,
                                             f: string)
    requires NowsPass(polls)
    ensures StampsAgree(sentAt, cooldown, polls, f)
  {
    if polls == [] {
      assert SentAfter(sentAt, cooldown, polls) == sentAt;
    } else {
      hide StampsAgree;
      StampsTellTheLast(sentAt, cooldown, polls[..|polls| - 1], f);
      StampsGoOn(sentAt, cooldown, polls, f);
    }
  }

  lemma StampsGoOn(sentAt: map<string, Instant>, cooldown: nat, polls: seq<ChangePoll>, f: string)
    requires NowsPass(polls) && polls != [] && StampsAgree(sentAt, cooldown, polls[..|polls| - 1], f)
    ensures StampsAgree(sentAt, cooldown, polls, f)
  {
    hide Kept, KeptOf, SentAfter, Stamped;
    var n := |polls| - 1;
    OneMorePoll(sentAt, cooldown, polls, f);
    forall j | 0 <= j < n
      ensures Kept(sentAt, cooldown, polls, j, f) <==> Kept(sentAt, cooldown, polls[..n], j, f)
    {
      KeptEarlier(sentAt, cooldown, polls, n, j, f);
    }
  }

  lemma OneMorePoll(sentAt: map<string, Instant>, cooldown: nat, polls: seq<ChangePoll>, f: string)
    requires polls != []
    ensures var n := |polls| - 1;
            var stamps, after := SentAfter(sentAt, cooldown, polls[..n]), SentAfter(sentAt, cooldown, polls);
            if Kept(sentAt, cooldown, polls, n, f)
            then && f in after && after[f] == polls[n].now
                 && (f in stamps && stamps[f] != 0 ==> polls[n].now >= stamps[f] + cooldown)
            else (f in after <==> f in stamps) && (f in after ==> after[f] == stamps[f])
  {
    hide KeptOf;
    var n := |polls| - 1;
    var stamps := SentAfter(sentAt, cooldown, polls[..n]);
    KeptLast(sentAt, cooldown, polls, f);
    StampedMeaning(stamps, KeptOf(stamps, cooldown, polls[n]), polls[n].now, f);
  }

  lemma KeptEarlier(sentAt: map<string, Instant>, cooldown: nat, polls: seq<ChangePoll>, n: nat, j: nat, f: string)
    requires j < n <= |polls|
    ensures Kept(sentAt, cooldown, polls, j, f) <==> Kept(sentAt, cooldown, polls[..n], j, f)
  {
    hide KeptOf, SentAfter;
    assert polls[..n][..j] == polls[..j];
  }

  lemma KeptLast(sentAt: map<string, Instant>, cooldown: nat, polls: seq<ChangePoll>, f: string)
    requires polls != []
    ensures var n := |polls| - 1;
            var stamps := SentAfter(sentAt, cooldown, polls[..n]);
            && (Kept(sentAt, cooldown, polls, n, f) <==>
                exists e :: e in KeptOf(stamps, cooldown, polls[n]) && !e.kind.IsIssue() && e.fingerprint == f)
            && (Kept(sentAt, cooldown, polls, n, f) && f in stamps && stamps[f] != 0 ==>
                  polls[n].now >= stamps[f] + cooldown)
  {
    hide KeptOf, SentAfter;
    var n := |polls| - 1;
    var stamps := SentAfter(sentAt, cooldown, polls[..n]);
    if Kept(sentAt, cooldown, polls, n, f) {
      var e :| e in KeptOf(stamps, cooldown, polls[n]) && !e.kind.IsIssue() && e.fingerprint == f;
      KeptIsDue(stamps, cooldown, polls[n], e);
    }
  }

  lemma KeptIsDue(sentAt: map<string, Instant>, cooldown: nat, c: ChangePoll, e: Event)
    requires e in KeptOf(sentAt, cooldown, c) && !e.kind.IsIssue()
    ensures e.fingerprint in sentAt && sentAt[e.fingerprint] != 0 ==> c.now >= sentAt[e.fingerprint] + cooldown
  {
    hide TakeAll;
    ChangesKept(c.issues, sentAt, cooldown, c.events, c.now, e);
  }

  /** Over any run of polls a change is reported exactly if no poll reported one with its fingerprint less
      than the cooldown ago, and none was sent so shortly before the run. */
  lemma ReportedOnceACooldown(sentAt: map<string, Instant>, cooldown: nat, polls: seq<ChangePoll>, k: nat, e: Event)
    requires NowsPass(polls) && k < |polls| && !e.kind.IsIssue()
    ensures e in KeptOf(SentAfter(sentAt, cooldown, polls[..k]), cooldown, polls[k]) <==>
            && e in polls[k].events
            && (forall j | 0 <= j < k && Kept(sentAt, cooldown, polls, j, e.fingerprint) ::
                  polls[k].now >= polls[j].now + cooldown)
            && (e.fingerprint in sentAt && sentAt[e.fingerprint] != 0 ==>
                  polls[k].now >= sentAt[e.fingerprint] + cooldown)
  {
    hide TakeAll, SentAfter;
    var before, f := polls[..k], e.fingerprint;
    StampsTellTheLast(sentAt, cooldown, before, f);
    var stamps := SentAfter(sentAt, cooldown, before);
    ChangesKept(polls[k].issues, stamps, cooldown, polls[k].events, polls[k].now, e);
    forall j | 0 <= j < k ensures Kept(sentAt, cooldown, polls, j, f) <==> Kept(sentAt, cooldown, before, j, f) {
      KeptEarlier(sentAt, cooldown, polls, k, j, f);
    }
    hide Kept;
  }

  // ----- The poll itself -----

  datatype PollResult = PollResult(apiOk: bool, activeCourses: nat, assignmentIssues: nat, gradingInProgress: nat,
                                   snapshots: map<string, Snapshot>, states: map<string, Issue>,
                                   suppressed: multiset<string>, events: seq<Event>)

  function ApiSeverity(status: string): Severity {
    if status in {"AUTH_ERROR", "FORBIDDEN", "UPSTREAM_ERROR"} then Error else Warn
  }

  /** The event a command names. */
  function KindFromSlug(slug: string): (r: Option<EventKind>)
    ensures r.Some? ==> r.value.IsIssue() || r.value.GradingFailed?
  {
    match Trim(slug)
    case "publish-delayed" => Some(PublishDelayed)
    case "draft-past-start" => Some(DraftPastStart)
    case "stale-draft" => Some(StaleDraft)
    case "invalid-time" => Some(InvalidTime)
    case "missing-problem" => Some(MissingProblem)
    case "grading-failed" => Some(GradingFailed)
    case _ => None
  }

  /** Until when, and whether for ever. */
  function AckUntil(value: string, now: Instant): Option<(Instant, bool)> {
    match Trim(value)
    case "1h" => Some((now + HOUR, false))
    case "6h" => Some((now + 6 * HOUR, false))
    case "1d" => Some((now + DAY, false))
    case "7d" => Some((now + 7 * DAY, false))
    case "forever" => Some((0, true))
    case _ => None
  }

  /** How the suggested commands name an event. */
  function EventSlug(kind: EventKind): string
    requires kind.IsIssue() || kind.GradingFailed?
  {
    match kind
    case PublishDelayed => "publish-delayed"
    case DraftPastStart => "draft-past-start"
    case StaleDraft => "stale-draft"
    case InvalidTime => "invalid-time"
    case MissingProblem => "missing-problem"
    case GradingFailed => "grading-failed"
  }

  /** A command names exactly the event that it was suggested for. */
  lemma SlugsRoundTrip(slug: string, kind: EventKind)
    requires kind.IsIssue() || kind.GradingFailed?
    ensures KindFromSlug(slug) == Some(kind) <==> Trim(slug) == EventSlug(kind)
  {
    hide Trim;
  }

  class AssignmentMonitor {
    const env: Env
    var issues: map<string, Issue>
    var snapshots: map<string, Snapshot>
    var baselineInitialized: bool
    var sentAt: map<string, Instant>
    var recent: seq<Event>

    constructor (env: Env)
      ensures this.env == env && issues == map[] && snapshots == map[] && !baselineInitialized
      ensures sentAt == map[] && recent == []
    {
      this.env := env;
      issues, snapshots, baselineInitialized, sentAt, recent := map[], map[], false, map[], [];
    }

    /** One poll. The issues become `PolledIssues`; counts are conserved once the baseline is set;
        a failed course list touches no issue and no snapshot, and a failed course keeps the
        baseline snapshots of the previous poll. */
    method RefreshAssignmentOps(report: Report, failure: string, now: Instant) returns (result: PollResult)
      modifies this
      ensures report.courses.None? ==>
                issues == old(issues) && snapshots == old(snapshots) && baselineInitialized == old(baselineInitialized)
      ensures report.courses.Some? ==>
                var fetched := Fetched(env, report, report.courses.value, now);
                && issues == PolledIssues(env, old(issues), old(sentAt), old(baselineInitialized), old(snapshots),
                                          fetched, now)
                && result.assignmentIssues == IssueCount(env, fetched, now)
                && Outcome(map[], result.events, result.suppressed) ==
                   Reported(env, old(issues), old(sentAt), old(baselineInitialized), old(snapshots), fetched, now)
                && snapshots == (if result.apiOk then Keyed(fetched) else old(snapshots))
                && baselineInitialized == (old(baselineInitialized) || result.apiOk)
                && (result.apiOk <==> forall c | c in ActiveCourses(env, report.courses.value, now) ::
                    report.assignments(c.slug).Some?)
      ensures old(baselineInitialized) || report.courses.None? ==>
                result.assignmentIssues == IssueEventCount(result.events) + |result.suppressed|
      ensures sentAt == Stamped(old(sentAt), result.events, now)
      ensures recent == Recent(old(recent), result.events)
      ensures old(baselineInitialized) && report.courses.Some? ==>
                forall e: Event | !e.kind.IsIssue() ::
                  e in result.events <==>
                  && e in EventsOf(env, old(snapshots), Fetched(env, report, report.courses.value, now), now)
                  && (e.fingerprint in old(sentAt) && old(sentAt)[e.fingerprint] != 0 ==>
                        now >= old(sentAt)[e.fingerprint] + if env.cooldown <= 0 then 15 * MINUTE else env.cooldown)
    {
      hide EventsOf, IssueCount, IssueEventCount, Keyed, Fetched, ActiveCourses, TakeAll, ResolvedNow;
      result := CollectAssignmentOps(report, failure, now);
      Persist(result, now);
      if old(baselineInitialized) && report.courses.Some? {
        ghost var events := EventsOf(env, old(snapshots), Fetched(env, report, report.courses.value, now), now);
        ghost var outcome := TakeAll(old(issues), old(sentAt), env.Cooldown(), events, now);
        assert Outcome(map[], result.events, result.suppressed) == outcome.(states := map[]);
        forall e: Event | !e.kind.IsIssue()
          ensures e in result.events <==>
                  && e in events
                  && (e.fingerprint in old(sentAt) && old(sentAt)[e.fingerprint] != 0 ==>
                        now >= old(sentAt)[e.fingerprint] + env.Cooldown())
        {
          ChangesKept(old(issues), old(sentAt), env.Cooldown(), events, now, e);
        }
      }
    }

    method CollectAssignmentOps(report: Report, failure: string, now: Instant) returns (result: PollResult)
      ensures report.courses.None? ==> result.states == map[] && !result.apiOk
      ensures report.courses.Some? ==>
                var fetched := Fetched(env, report, report.courses.value, now);
                && issues + result.states == PolledIssues(env, issues, sentAt, baselineInitialized, snapshots,
                                                          fetched, now)
                && result.assignmentIssues == IssueCount(env, fetched, now)
                && result.snapshots == Keyed(fetched)
                && Outcome(map[], result.events, result.suppressed) ==
                   Reported(env, issues, sentAt, baselineInitialized, snapshots, fetched, now)
                && (result.apiOk <==> forall c | c in ActiveCourses(env, report.courses.value, now) ::
                    report.assignments(c.slug).Some?)
      ensures baselineInitialized || report.courses.None? ==>
                result.assignmentIssues == IssueEventCount(result.events) + |result.suppressed|
    {
      hide EventsOf, IssueCount, IssueEventCount, Keyed, Fetched, ActiveCourses, TakeAll, ResolvedNow, GroupKey,
          MakeIssueEvent;
      result := Collect(report, failure, now);
      if report.courses.Some? {
        IssueCountsAreConserved(env, issues, sentAt, snapshots, Fetched(env, report, report.courses.value, now), now);
      } else {
        assert result.events == [result.events[0]];
        NonIssueEventTaken(issues, sentAt, env.Cooldown(), result.events[0], now);
      }
      var outcome := ApplyLifecycle(result.events, if report.courses.None? then None else Some(result.snapshots), now);
      result := result.(states := outcome.states, suppressed := outcome.suppressed, events := outcome.kept);
    }

    lemma NothingFetched(report: Report, r: PollResult, now: Instant)
      requires r.states == map[] && r.suppressed == multiset{} && r.snapshots == map[]
      requires r.assignmentIssues == 0 && r.events == []
      ensures RowsOf(report, []) == [] && HydrateAll(report, []) == ([], POLL_BUDGET) && Progress(r, [], now)
    {
    }

    lemma HydrateMore(report: Report, rows: seq<Row>, row: Row)
      ensures var before := HydrateAll(report, rows);
              var last := Hydrate(report, row, before.1);
              HydrateAll(report, rows + [row]) == (before.0 + [last.0], last.1)
    {
      assert (rows + [row])[..|rows|] == rows;
    }

    lemma RowsOfMore(report: Report, courses: seq<Course>, c: Course)
      ensures RowsOf(report, courses + [c]) == RowsOf(report, courses) +
              if report.assignments(c.slug).Some? then CourseRows(c.slug, report.assignments(c.slug).value) else []
    {
      assert (courses + [c])[..|courses|] == courses;
    }

    method Collect(report: Report, failure: string, now: Instant) returns (r: PollResult)
      ensures r.states == map[] && r.suppressed == multiset{}
      ensures report.courses.None? ==>
                && !r.apiOk && r.assignmentIssues == 0 && r.snapshots == map[] && |r.events| == 1
                && r.events[0].kind == AdminApi(failure) && r.events[0].shouldNotify
                && r.events[0].severity == (if failure in {"AUTH_ERROR", "FORBIDDEN", "UPSTREAM_ERROR"} then Error
                                            else Warn)
      ensures report.courses.Some? ==>
                var active := ActiveCourses(env, report.courses.value, now);
                var fetched := Fetched(env, report, report.courses.value, now);
                && r.activeCourses == |active|
                && (r.apiOk <==> forall c | c in active :: report.assignments(c.slug).Some?)
                && r.snapshots == Keyed(fetched)
                && r.assignmentIssues == IssueCount(env, fetched, now)
                && r.events == if baselineInitialized then EventsOf(env, snapshots, fetched, now) else []
    {
      hide EventsOf, IssueCount, Keyed, HydrateAll, ActiveCourses, RowsOf;
      r := PollResult(true, 0, 0, 0, map[], map[], multiset{}, []);
      if report.courses.None? {
        var e := Event("web-admin-api:" + failure, "", AdminApi(failure), ApiSeverity(failure), "", "", NO_DETAILS,
                       "", "", true, false, now, NoPhase, 0, 0, 0, 0);
        return r.(apiOk := false, events := [e]);
      }
      var active := ActiveCourses(env, report.courses.value, now);
      r := CollectCourses(report, active, now, r.(activeCourses := |active|));
    }

    /** The outer loop of a poll. */
    method CollectCourses(report: Report, active: seq<Course>, now: Instant, start: PollResult) returns (r: PollResult)
      requires start == PollResult(true, |active|, 0, 0, map[], map[], multiset{}, [])
      ensures r.activeCourses == |active|
      ensures r.apiOk <==> forall c | c in active :: report.assignments(c.slug).Some?
      ensures Progress(r, HydrateAll(report, RowsOf(report, active)).0, now)
    {
      hide EventsOf, IssueCount, Keyed, HydrateAll, CourseRows, ActiveCourses, EventsFor, RowsOf;
      r := start;
      NothingFetched(report, r, now);
      assert active[..0] == [];
      var budget := POLL_BUDGET;
      ghost var rows: seq<Row> := [];
      ghost var fetched: seq<Snapshot> := [];
      for i := 0 to |active|
        invariant rows == RowsOf(report, active[..i])
        invariant HydrateAll(report, rows) == (fetched, budget)
        invariant r.apiOk <==> forall c | c in active[..i] :: report.assignments(c.slug).Some?
        invariant Progress(r, fetched, now) && r.activeCourses == |active|
      {
        assert active[..i + 1] == active[..i] + [active[i]];
        RowsOfMore(report, active[..i], active[i]);
        var assignments := report.assignments(active[i].slug);
        if assignments.None? {
          r := r.(apiOk := false);
        } else {
          r, budget, rows, fetched := CollectCourse(report, active[i].slug, assignments.value, now, r, budget, rows,
                                                    fetched);
        }
      }
      assert active[..|active|] == active;
    }

    /** The inner loop of a poll: hydrate and visit the assignments of one course. */
    method CollectCourse(report: Report, slug: string, assignments: seq<Assignment>, now: Instant, r: PollResult,
                         budget: Budget,
                         ghost rows: seq<Row>, ghost fetched: seq<Snapshot>)
      returns (r': PollResult, budget': Budget, ghost rows': seq<Row>, ghost fetched': seq<Snapshot>)
      requires HydrateAll(report, rows) == (fetched, budget) && Progress(r, fetched, now)
      ensures rows' == rows + CourseRows(slug, assignments)
      ensures HydrateAll(report, rows') == (fetched', budget') && Progress(r', fetched', now)
      ensures r'.apiOk == r.apiOk && r'.activeCourses == r.activeCourses
    {
      hide EventsOf, IssueCount, Keyed, Hydrate, EventsFor, HydrateAll, Progress;
      r', budget', rows', fetched' := r, budget, rows, fetched;
      for j := 0 to |assignments|
        invariant rows' == rows + CourseRows(slug, assignments[..j])
        invariant HydrateAll(report, rows') == (fetched', budget') && Progress(r', fetched', now)
        invariant r'.apiOk == r.apiOk && r'.activeCourses == r.activeCourses
      {
        assert assignments[..j + 1][..j] == assignments[..j];
        var row := Row(slug, assignments[j]);
        var hydrated := Hydrate(report, row, budget');
        HydrateMore(report, rows', row);
        r' := Visit(r', hydrated.0, now, fetched');
        budget', rows', fetched' := hydrated.1, rows' + [row], fetched' + [hydrated.0];
      }
      assert assignments[..|assignments|] == assignments;
    }

    ghost predicate Progress(r: PollResult, fetched: seq<Snapshot>, now: Instant)
      reads this
    {
      && r.states == map[] && r.suppressed == multiset{}
      && r.snapshots == Keyed(fetched)
      && r.assignmentIssues == IssueCount(env, fetched, now)
      && r.events == if baselineInitialized then EventsOf(env, snapshots, fetched, now) else []
    }

    lemma OneMoreFetched(fetched: seq<Snapshot>, s: Snapshot, now: Instant)
      ensures Keyed(fetched + [s]) == Keyed(fetched)[SnapshotKey(s.courseSlug, s.assignmentID) := s]
      ensures IssueCount(env, fetched + [s], now) == IssueCount(env, fetched, now)
                + CountedDiagnoses(Diagnose(env, s, now))
      ensures EventsOf(env, snapshots, fetched + [s], now) == EventsOf(env, snapshots, fetched, now) + EventsFor(env,
                snapshots, s, now)
    {
      hide SnapshotKey, Diagnose, CountedDiagnoses, EventsFor;
      assert (fetched + [s])[..|fetched|] == fetched;
    }

    /** The inner loop over the diagnoses of one snapshot; only a poll with the baseline set emits. */
    method CountAndEmit(s: Snapshot, diagnoses: seq<Diagnosis>, now: Instant)
        returns (counted: nat, emitted: seq<Event>)
      ensures counted == CountedDiagnoses(diagnoses)
      ensures emitted == if baselineInitialized then IssueEvents(env, s, diagnoses, now) else []
    {
      hide MakeIssueEvent;
      counted, emitted := 0, [];
      for i := 0 to |diagnoses|
        invariant counted == CountedDiagnoses(diagnoses[..i])
        invariant emitted == if baselineInitialized then IssueEvents(env, s, diagnoses[..i], now) else []
      {
        assert diagnoses[..i + 1][..i] == diagnoses[..i];
        if diagnoses[i].shouldCount { counted := counted + 1; }
        if baselineInitialized { emitted := emitted + [MakeIssueEvent(env, s, diagnoses[i], now)]; }
      }
      assert diagnoses[..|diagnoses|] == diagnoses;
    }

    /** The loop body of a poll: file the snapshot, count and emit its diagnoses, diff it. */
    method Visit(r: PollResult, s: Snapshot, now: Instant, ghost fetched: seq<Snapshot>) returns (r': PollResult)
      requires Progress(r, fetched, now)
      ensures Progress(r', fetched + [s], now)
      ensures r'.apiOk == r.apiOk && r'.activeCourses == r.activeCourses
      ensures r'.gradingInProgress == r.gradingInProgress + if s.pending > 0 then 1 else 0
    {
      hide Diagnose, Diff, IssueEvents, SnapshotKey, CountedDiagnoses, EventsOf, Keyed, IssueCount;
      OneMoreFetched(fetched, s, now);
      var key := SnapshotKey(s.courseSlug, s.assignmentID);
      var diagnoses := Diagnose(env, s, now);
      var counted, emitted := CountAndEmit(s, diagnoses, now);
      r' := r.(snapshots := r.snapshots[key := s], assignmentIssues := r.assignmentIssues + counted,
               gradingInProgress := r.gradingInProgress + if s.pending > 0 then 1 else 0);
      if baselineInitialized {
        var diff := Diff(env, if key in snapshots then Some(snapshots[key]) else None, s, now);
        r' := r'.(events := r.events + (emitted + diff));
      }
    }

    /** The lifecycle loop over the events, then the resolution loop over the stored issues. */
    method ApplyLifecycle(events: seq<Event>, polled: Option<map<string, Snapshot>>, now: Instant) returns (o: Outcome)
      ensures var taken := TakeAll(issues, sentAt, env.Cooldown(), events, now);
              && o.kept == taken.kept && o.suppressed == taken.suppressed
              && o.states == if polled.None? then taken.states
                             else taken.states + ResolvedNow(issues, taken.states.Keys, polled.value, now)
    {
      hide ApplyIssueState, GroupKey, SnapshotKey, ResolvedNow;
      o := Outcome(map[], [], multiset{});
      for i := 0 to |events|
        invariant o == TakeAll(issues, sentAt, env.Cooldown(), events[..i], now)
      {
        assert events[..i + 1][..i] == events[..i];
        var e := events[i];
        if e.kind.IsIssue() {
          var (updated, stays) := ApplyIssueState(Stored(issues, e.issueKey), e, now);
          o := o.(states := o.states[e.issueKey := updated]);
          if stays {
            o := o.(kept := o.kept + [Enrich(e, updated)]);
          } else if e.shouldCount {
            o := o.(suppressed := o.suppressed + multiset{GroupKey(e)});
          }
          continue;
        }
        if CoolingDown(sentAt, env.Cooldown(), e, now) { continue; }
        o := o.(kept := o.kept + [e]);
      }
      assert events[..|events|] == events;
      if polled.Some? {
        var resolved := ResolveUnobserved(o.states.Keys, polled.value, now);
        o := o.(states := o.states + resolved);
      }
    }

    method ResolveUnobserved(observed: set<string>, polled: map<string, Snapshot>,
        now: Instant) returns (resolved: map<string, Issue>)
      ensures resolved == ResolvedNow(issues, observed, polled, now)
    {
      resolved := map[];
      var left := issues.Keys;
      while left != {}
        invariant left <= issues.Keys
        invariant resolved.Keys == set key | key in issues && key !in left && ResolvesNow(issues, observed, polled, key)
        invariant forall key | key in resolved :: resolved[key] == ResolvedIssue(issues[key], now)
        decreases left
      {
        hide SnapshotKey;
        var key :| key in left;
        left := left - {key};
        var issue := issues[key];
        if key in observed || issue.issueKey == "" || issue.phase == Resolved { continue; }
        if SnapshotKey(issue.courseSlug, issue.assignmentID) !in polled { continue; }
        resolved := resolved[key := ResolvedIssue(issue, now)];
      }
    }

    method Persist(result: PollResult, now: Instant)
      modifies this
      ensures snapshots == if result.apiOk then result.snapshots else old(snapshots)
      ensures baselineInitialized == (old(baselineInitialized) || result.apiOk)
      ensures issues == old(issues) + result.states
      ensures sentAt == Stamped(old(sentAt), result.events, now)
      ensures recent == Recent(old(recent), result.events)
    {
      if result.apiOk {
        snapshots := result.snapshots;
        baselineInitialized := true;
      }
      issues := issues + result.states;
      for i := 0 to |result.events|
        invariant snapshots == if result.apiOk then result.snapshots else old(snapshots)
        invariant baselineInitialized == (old(baselineInitialized) || result.apiOk)
        invariant issues == old(issues) + result.states
        invariant sentAt == Stamped(old(sentAt), result.events[..i], now)
        invariant recent == Pushed(old(recent), result.events[..i])
      {
        var e := result.events[i];
        assert result.events[..i + 1][..i] == result.events[..i];
        if !e.kind.IsIssue() {
          sentAt := sentAt[e.fingerprint := now];
        }
        recent := [e] + recent;
      }
      assert result.events[..|result.events|] == result.events;
      if |recent| > RECENT_LIMIT {
        recent := recent[..RECENT_LIMIT];
      }
    }

    /** An operator command is refused, or is one step of the commanded issue's run. */
    method AcknowledgeAssignmentIssue(courseSlug: string, assignmentID: string, eventSlug: string, until: string,
                                      reason: string, actor: string, now: Instant)
      returns (ok: bool)
      modifies this`issues
      ensures ok <==> && KindFromSlug(eventSlug).Some? && !Blank(env.sanitize(reason))
                      && Trim(until) in {"1h", "6h", "1d", "7d", "forever"}
      ensures !ok ==> issues == old(issues)
      ensures ok ==>
                var who := Identity(KindFromSlug(eventSlug).value, courseSlug, assignmentID);
                var (ackUntil, silenced) := AckUntil(until, now).value;
                var by' := if Blank(actor) then "discord" else actor;
                issues == old(issues)[who.Key() := Apply(who, Stored(old(issues), who.Key()),
                                                         Acknowledge(ackUntil, silenced, by',
                                                                     Trim(env.sanitize(reason))))]
      ensures ok ==>
                var issue := issues[Identity(KindFromSlug(eventSlug).value, courseSlug, assignmentID).Key()];
                var hours := match Trim(until) case "1h" => 1 case "6h" => 6 case "1d" => 24 case "7d" => 7 * 24
                                               case _ => 0;
                && (Trim(until) == "forever" ==>
                      && issue.phase == Silenced && issue.ackUntil == 0
                      && forall event, at: Instant :: !Notifies(issue, event, at))
                && (Trim(until) != "forever" ==>
                      && issue.phase == Acknowledged && issue.ackUntil == now + hours * HOUR
                      && forall event, at: Instant :: Notifies(issue, event, at) <==>
                                             event.shouldNotify && at >= now + hours * HOUR)
    {
      var kind := KindFromSlug(eventSlug);
      if kind.None? { return false; }
      var parsed := AckUntil(until, now);
      if parsed.None? { return false; }
      var text := Trim(env.sanitize(reason));
      if text == "" { return false; }
      var who := Identity(kind.value, courseSlug, assignmentID);
      var issue := Stored(issues, who.Key());
      issue := issue.(issueKey := who.Key(), kind := kind.value, courseSlug := courseSlug,
                      assignmentID := assignmentID);
      issue := issue.(ackBy := if Blank(actor) then "discord" else actor, ackReason := text,
                      ackUntil := parsed.value.0);
      if parsed.value.1 {
        issue := issue.(phase := Silenced);
      } else {
        issue := issue.(phase := Acknowledged);
      }
      issues := issues[who.Key() := issue];
      return true;
    }

    method UnacknowledgeAssignmentIssue(courseSlug: string, assignmentID: string, eventSlug: string) returns (ok: bool)
      modifies this`issues
      ensures ok <==> KindFromSlug(eventSlug).Some?
      ensures !ok ==> issues == old(issues)
      ensures ok ==>
                var who := Identity(KindFromSlug(eventSlug).value, courseSlug, assignmentID);
                issues == old(issues)[who.Key() := Apply(who, Stored(old(issues), who.Key()), Unacknowledge)]
    {
      var kind := KindFromSlug(eventSlug);
      if kind.None? { return false; }
      var who := Identity(kind.value, courseSlug, assignmentID);
      var issue := Stored(issues, who.Key());
      issue := issue.(issueKey := who.Key(), kind := kind.value, courseSlug := courseSlug,
                      assignmentID := assignmentID);
      issue := issue.(phase := Open, ackBy := "", ackReason := "", ackUntil := 0);
      issues := issues[who.Key() := issue];
      return true;
    }
  }
}

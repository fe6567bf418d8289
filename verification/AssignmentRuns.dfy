/** Whole runs of polls and operator commands, seen from one issue: each is one step of its lifecycle,
    and the events the polls keep for notification are the notifications of that lifecycle. */
module AssignmentRuns {
  import opened AssignmentDiagnosis
  import opened AssignmentModel
  import opened AssignmentOps
  import opened Clock
  import opened IssueLifecycle
  import opened Text
  import opened Wrappers

  /** A poll by what it reads beside the stored issues, or a command on an issue. */
  datatype Act =
    | Polled(baseline: bool, sentAt: map<string, Instant>, previous: map<string, Snapshot>, fetched: seq<Snapshot>,
             now: Instant)
    | Commanded(target: Identity, command: Step)

  ghost predicate Proper(who: Identity) {
    (who.kind.IsIssue() || who.kind.GradingFailed?) && ':' !in who.courseSlug
  }

  ghost predicate Distinct(fetched: seq<Snapshot>) {
    forall i, j | 0 <= i < j < |fetched| ::
      fetched[i].courseSlug != fetched[j].courseSlug || fetched[i].assignmentID != fetched[j].assignmentID
  }

  /** Colon-free slugs, and no assignment fetched twice in one poll. */
  ghost predicate Possible(act: Act) {
    match act
    case Polled(_, _, _, fetched, _) => PlainSlugs(fetched) && Distinct(fetched)
    case Commanded(target, command) => Proper(target) && (command.Acknowledge? || command.Unacknowledge?)
  }

  function EventsIn(env: Env, act: Act): seq<Event>
    requires act.Polled?
  {
    if act.baseline then EventsOf(env, act.previous, act.fetched, act.now) else []
  }

  function AfterAct(env: Env, issues: map<string, Issue>, act: Act): map<string, Issue> {
    match act
    case Polled(baseline, sentAt, previous, fetched, now) => PolledIssues(env, issues, sentAt, baseline, previous,
        fetched, now)
    case Commanded(target, command) => issues[target.Key() := Apply(target, Stored(issues, target.Key()), command)]
  }

  function AfterActs(env: Env, issues: map<string, Issue>, acts: seq<Act>): map<string, Issue>
    decreases |acts|
  {
    if acts == [] then issues else AfterActs(env, AfterAct(env, issues, acts[0]), acts[1..])
  }

  /** The events a poll keeps. */
  function KeptBy(env: Env, issues: map<string, Issue>, act: Act): seq<Event> {
    if act.Polled? then TakeAll(issues, act.sentAt, env.Cooldown(), EventsIn(env, act), act.now).kept else []
  }

  /** The issue events with a key. */
  function ForIssue(events: seq<Event>, key: string): seq<Event> {
    if events == [] then []
    else
      var last := events[|events| - 1];
      ForIssue(events[..|events| - 1], key) + if last.kind.IsIssue() && last.issueKey == key then [last] else []
  }

  /** How many of the events are to be sent. */
  function ToSend(events: seq<Event>): nat {
    if events == [] then 0
    else ToSend(events[..|events| - 1]) + if events[|events| - 1].shouldNotify then 1 else 0
  }

  /** The events of a run that are kept for an issue and to be sent. */
  function SentFor(env: Env, issues: map<string, Issue>, acts: seq<Act>, key: string): nat
    decreases |acts|
  {
    if acts == [] then 0
    else ToSend(ForIssue(KeptBy(env, issues, acts[0]), key)) + SentFor(env, AfterAct(env, issues, acts[0]), acts[1..],
                                                                       key)
  }

  /** What an act is to one issue: an observation, a resolution, a command, or nothing. */
  function StepsOf(env: Env, who: Identity, act: Act): seq<Step> {
    match act
    case Commanded(target, command) => if target.Key() == who.Key() then [command] else []
    case Polled(_, _, _, fetched, now) =>
      var seen := ForIssue(EventsIn(env, act), who.Key());
      if seen != [] then [Observe(seen[|seen| - 1], now)]
      else if SnapshotKey(who.courseSlug, who.assignmentID) in Keyed(fetched) then [Resolve(now)]
      else []
  }

  function Steps(env: Env, who: Identity, acts: seq<Act>): seq<Step> {
    if acts == [] then [] else StepsOf(env, who, acts[0]) + Steps(env, who, acts[1..])
  }

  // ----- One poll -----

  lemma {:induction false} StateIsOfLastEvent(issues: map<string, Issue>, sentAt: map<string, Instant>, cooldown: nat,
                                              events: seq<Event>, now: Instant, key: string)
    ensures var states, seen := TakeAll(issues, sentAt, cooldown, events, now).states, ForIssue(events, key);
            && (key in states <==> seen != [])
            && (seen != [] ==> states[key] == ApplyIssueState(Stored(issues, key), seen[|seen| - 1], now).0)
  {
    if events != [] {
      var before, last := events[..|events| - 1], events[|events| - 1];
      StateIsOfLastEvent(issues, sentAt, cooldown, before, now, key);
      StatesAfterLast(issues, sentAt, cooldown, events, now);
      assert events == before + [last];
      ForIssueAppends(before, last, key);
      hide TakeAll, ForIssue, ApplyIssueState, Stored;
    }
  }

  lemma {:induction false} ToSendJoins(a: seq<Event>, b: seq<Event>)
    ensures ToSend(a + b) == ToSend(a) + ToSend(b)
  {
    if b == [] {
      assert a + b == a;
    } else {
      assert (a + b)[..|a + b| - 1] == a + b[..|b| - 1];
      ToSendJoins(a, b[..|b| - 1]);
    }
  }

  /** How many of these events notify, each from the stored issue. */
  function Notifying(issue: Issue, seen: seq<Event>, now: Instant): nat {
    if seen == [] then 0
    else Notifying(issue, seen[..|seen| - 1], now) + if Notifies(issue, seen[|seen| - 1], now) then 1 else 0
  }

  lemma ForIssueAppends(events: seq<Event>, e: Event, key: string)
    ensures ForIssue(events + [e], key) == ForIssue(events, key) + if e.kind.IsIssue() && e.issueKey == key then [e]
              else []
  {
    assert (events + [e])[..|events|] == events;
  }

  lemma NotifyingAppends(issue: Issue, seen: seq<Event>, e: Event, now: Instant)
    ensures Notifying(issue, seen + [e], now) == Notifying(issue, seen, now) + if Notifies(issue, e, now) then 1 else 0
  {
    assert (seen + [e])[..|seen|] == seen;
  }

  lemma ToSendAppends(events: seq<Event>, e: Event)
    ensures ToSend(events + [e]) == ToSend(events) + if e.shouldNotify then 1 else 0
  {
    assert (events + [e])[..|events|] == events;
  }

  /** The kept events to send for an issue are those of its events that notify. */
  lemma {:induction false} KeptAreNotifying(issues: map<string, Issue>, sentAt: map<string, Instant>, cooldown: nat,
                                            events: seq<Event>, now: Instant, key: string)
    ensures ToSend(ForIssue(TakeAll(issues, sentAt, cooldown, events, now).kept, key)) ==
            Notifying(Stored(issues, key), ForIssue(events, key), now)
  {
    hide GroupKey, CoolingDown, ApplyIssueState, Stored, ForIssue, ToSend, Notifying;
    if events == [] {
      NothingToSend(Stored(issues, key), now, key);
    } else {
      var before, e := events[..|events| - 1], events[|events| - 1];
      KeptAreNotifying(issues, sentAt, cooldown, before, now, key);
      assert events == before + [e];
      ForIssueAppends(before, e, key);
      var kept := TakeAll(issues, sentAt, cooldown, before, now).kept;
      var r := ApplyIssueState(Stored(issues, e.issueKey), e, now);
      ForIssueAppends(kept, Enrich(e, r.0), key);
      ForIssueAppends(kept, e, key);
      ToSendAppends(ForIssue(kept, key), Enrich(e, r.0));
      NotifyingAppends(Stored(issues, key), ForIssue(before, key), e, now);
      assert ForIssue(kept, key) + [] == ForIssue(kept, key);
      assert ForIssue(before, key) + [] == ForIssue(before, key);
    }
  }

  lemma NothingToSend(issue: Issue, now: Instant, key: string)
    ensures ForIssue([], key) == [] && ToSend([]) == 0 && Notifying(issue, [], now) == 0
  {
  }

  lemma {:induction false} ForIssueJoins(a: seq<Event>, b: seq<Event>, key: string)
    ensures ForIssue(a + b, key) == ForIssue(a, key) + ForIssue(b, key)
  {
    if b == [] {
      assert a + b == a;
    } else {
      assert (a + b)[..|a + b| - 1] == a + b[..|b| - 1];
      ForIssueJoins(a, b[..|b| - 1], key);
    }
  }

  lemma {:induction false} ForIssueMembers(events: seq<Event>, key: string, e: Event)
    ensures e in ForIssue(events, key) <==> e in events && e.kind.IsIssue() && e.issueKey == key
  {
    if events != [] {
      ForIssueMembers(events[..|events| - 1], key, e);
      assert events == events[..|events| - 1] + [events[|events| - 1]];
    }
  }

  /** Events of one snapshot: of the issue events, at most one has the key. */
  lemma {:induction false} OneOfSnapshot(env: Env, s: Snapshot, ds: seq<Diagnosis>, now: Instant, key: string)
    requires ':' !in s.courseSlug
    requires forall d | d in ds :: d.kind.IsIssue()
    requires forall i, j | 0 <= i < j < |ds| :: ds[i].kind != ds[j].kind
    ensures |ForIssue(IssueEvents(env, s, ds, now), key)| <= 1
    ensures forall e | e in ForIssue(IssueEvents(env, s, ds, now), key) ::
              exists d :: d in ds && e.kind == d.kind && key == IssueKey(d.kind, s.courseSlug, s.assignmentID)
  {
    hide EvidenceHash, IssueKey, ForIssue, IssueEvents;
    if ds == [] {
      NothingToSend(NO_ISSUE, now, key);
      assert IssueEvents(env, s, ds, now) == [];
    } else {
      var n := |ds| - 1;
      assert ds[n] in ds && forall d | d in ds[..n] :: d in ds;
      OneOfSnapshot(env, s, ds[..n], now, key);
      var before, last := IssueEvents(env, s, ds[..n], now), MakeIssueEvent(env, s, ds[n], now);
      assert IssueEvents(env, s, ds, now) == before + [last];
      ForIssueAppends(before, last, key);
      if ForIssue(before, key) != [] {
        var e := ForIssue(before, key)[0];
        assert e in ForIssue(before, key);
        var d :| d in ds[..n] && e.kind == d.kind && key == IssueKey(d.kind, s.courseSlug, s.assignmentID);
        IssueKeysAgree(d.kind, s.courseSlug, s.assignmentID, ds[n].kind, s.courseSlug, s.assignmentID);
      }
      forall e | e in ForIssue(before + [last], key)
        ensures exists d :: d in ds && e.kind == d.kind && key == IssueKey(d.kind, s.courseSlug, s.assignmentID)
      {
        if e in ForIssue(before, key) {
          var d :| d in ds[..n] && e.kind == d.kind && key == IssueKey(d.kind, s.courseSlug, s.assignmentID);
          assert d in ds;
        } else {
          assert e == last && last.kind == ds[n].kind
                   && last.issueKey == IssueKey(ds[n].kind, s.courseSlug, s.assignmentID);
        }
      }
    }
  }

  lemma {:induction false} NoIssueInDiff(events: seq<Event>, key: string)
    requires forall e | e in events :: !e.kind.IsIssue()
    ensures ForIssue(events, key) == []
  {
    if events != [] {
      assert events[|events| - 1] in events;
      NoIssueInDiff(events[..|events| - 1], key);
    }
  }

  /** In a poll of distinct assignments at most one event has the key of an issue. */
  lemma {:induction false} SeenOnce(env: Env, previous: map<string, Snapshot>, fetched: seq<Snapshot>, now: Instant,
                                    key: string)
    requires PlainSlugs(fetched) && Distinct(fetched)
    ensures |ForIssue(EventsOf(env, previous, fetched, now), key)| <= 1
  {
    hide Diagnose, IssueEvents, Diff, SnapshotKey, ForIssue;
    if fetched == [] {
      NothingToSend(NO_ISSUE, now, key);
    } else {
      var before, s := fetched[..|fetched| - 1], fetched[|fetched| - 1];
      assert s in fetched && forall t | t in before :: t in fetched;
      SeenOnce(env, previous, before, now, key);
      var ds := Diagnose(env, s, now);
      var issueEvents := IssueEvents(env, s, ds, now);
      var diff := Diff(env, if SnapshotKey(s.courseSlug, s.assignmentID) in previous
                            then Some(previous[SnapshotKey(s.courseSlug, s.assignmentID)]) else None, s, now);
      DiagnosesAreFewAndDistinct(env, s, now);
      OneOfSnapshot(env, s, ds, now, key);
      NoIssueInDiff(diff, key);
      ForIssueJoins(issueEvents, diff, key);
      ForIssueJoins(EventsOf(env, previous, before, now), issueEvents + diff, key);
      if ForIssue(issueEvents, key) != [] && ForIssue(EventsOf(env, previous, before, now), key) != [] {
        SeenElsewhere(env, previous, before, s, now, key);
      }
    }
  }

  lemma SeenElsewhere(env: Env, previous: map<string, Snapshot>, before: seq<Snapshot>, s: Snapshot, now: Instant,
                      key: string)
    requires PlainSlugs(before) && ':' !in s.courseSlug
    requires ForIssue(IssueEvents(env, s, Diagnose(env, s, now), now), key) != []
    requires ForIssue(EventsOf(env, previous, before, now), key) != []
    ensures exists t :: t in before && t.courseSlug == s.courseSlug && t.assignmentID == s.assignmentID
  {
    hide Diagnose, IssueEvents, Diff, SnapshotKey, ForIssue, IssueKey, EvidenceHash, EventsOf;
    var e := ForIssue(EventsOf(env, previous, before, now), key)[0];
    ForIssueMembers(EventsOf(env, previous, before, now), key, e);
    IssueEventsComeFromDiagnoses(env, previous, before, now, e);
    var t, d :| t in before && d in Diagnose(env, t, now) && e == MakeIssueEvent(env, t, d, now);
    DiagnosesAreFewAndDistinct(env, t, now);
    DiagnosesAreFewAndDistinct(env, s, now);
    OneOfSnapshot(env, s, Diagnose(env, s, now), now, key);
    var e' := ForIssue(IssueEvents(env, s, Diagnose(env, s, now), now), key)[0];
    assert e' in ForIssue(IssueEvents(env, s, Diagnose(env, s, now), now), key);
    var d' :| d' in Diagnose(env, s, now) && e'.kind == d'.kind
          && key == IssueKey(d'.kind, s.courseSlug, s.assignmentID);
    IssueKeysAgree(d.kind, t.courseSlug, t.assignmentID, d'.kind, s.courseSlug, s.assignmentID);
  }

  // ----- Acts as steps -----

  lemma {:induction false} StepsJoin(who: Identity, issue: Issue, a: seq<Step>, b: seq<Step>)
    decreases |a|
    ensures Run(who, issue, a + b) == Run(who, Run(who, issue, a), b)
    ensures Notifications(who, issue, a + b) == Notifications(who, issue, a) + Notifications(who, Run(who, issue, a), b)
  {
    if a == [] {
      assert a + b == b;
    } else {
      assert (a + b)[1..] == a[1..] + b;
      StepsJoin(who, Apply(who, issue, a[0]), a[1..], b);
    }
  }

  lemma OneStep(who: Identity, issue: Issue, step: Step)
    ensures Run(who, issue, [step]) == Apply(who, issue, step)
    ensures Notifications(who, issue, [step]) == if step.Observe? && Notifies(issue, step.event, step.at) then 1 else 0
  {
    assert [step][1..] == [];
  }

  /** A stored issue is the one its key names. */
  lemma StoredIdentity(issues: map<string, Issue>, who: Identity)
    requires WellKeyed(issues) && Proper(who) && who.Key() in issues
    ensures issues[who.Key()].courseSlug == who.courseSlug && issues[who.Key()].assignmentID == who.assignmentID
    ensures issues[who.Key()].kind == who.kind
  {
    var issue := issues[who.Key()];
    if who.kind.IsIssue() {
      IssueKeysAgree(who.kind, who.courseSlug, who.assignmentID, issue.kind, issue.courseSlug, issue.assignmentID);
    } else if issue.kind.IsIssue() {
      IssueKeysAgree(issue.kind, issue.courseSlug, issue.assignmentID, who.kind, who.courseSlug, who.assignmentID);
    } else {
      LabelsAgree(StaleDraft, GradingFailed);
      JoinedKeysAgree(who.kind.Label(), who.courseSlug, who.assignmentID, issue.kind.Label(), issue.courseSlug,
                      issue.assignmentID);
    }
  }

  lemma PollIsAStep(env: Env, who: Identity, issues: map<string, Issue>, act: Act)
    requires WellKeyed(issues) && Proper(who) && act.Polled? && Possible(act)
    ensures Stored(AfterAct(env, issues, act), who.Key()) == Run(who, Stored(issues, who.Key()), StepsOf(env, who, act))
    ensures ToSend(ForIssue(KeptBy(env, issues, act), who.Key())) ==
            Notifications(who, Stored(issues, who.Key()), StepsOf(env, who, act))
  {
    hide EventsOf, TakeAll, Keyed, ApplyIssueState, SnapshotKey, IssueKey, ForIssue, ToSend, Run, Notifications,
        Notifying;
    var key, events := who.Key(), EventsIn(env, act);
    var issue, seen := Stored(issues, key), ForIssue(events, key);
    StateIsOfLastEvent(issues, act.sentAt, env.Cooldown(), events, act.now, key);
    KeptAreNotifying(issues, act.sentAt, env.Cooldown(), events, act.now, key);
    NothingToSend(issue, act.now, key);
    if act.baseline { SeenOnce(env, act.previous, act.fetched, act.now, key); }
    if key in issues { StoredIdentity(issues, who); }
    NoStep(who, issue);
    if seen != [] {
      OneStep(who, issue, Observe(seen[0], act.now));
      OneNotifying(issue, seen, act.now);
    } else {
      OneStep(who, issue, Resolve(act.now));
    }
  }

  lemma NoStep(who: Identity, issue: Issue)
    ensures Run(who, issue, []) == issue && Notifications(who, issue, []) == 0
  {
  }

  lemma OneNotifying(issue: Issue, seen: seq<Event>, now: Instant)
    requires |seen| == 1
    ensures Notifying(issue, seen, now) == if Notifies(issue, seen[0], now) then 1 else 0
  {
    assert seen[..0] == [];
  }

  lemma CommandIsAStep(env: Env, who: Identity, issues: map<string, Issue>, act: Act)
    requires Proper(who) && act.Commanded? && Possible(act)
    ensures Stored(AfterAct(env, issues, act), who.Key()) == Run(who, Stored(issues, who.Key()), StepsOf(env, who, act))
    ensures ToSend(ForIssue(KeptBy(env, issues, act), who.Key())) == 0
    ensures Notifications(who, Stored(issues, who.Key()), StepsOf(env, who, act)) == 0
  {
    hide Run, Notifications, ForIssue, ToSend, IssueKey;
    var issue := Stored(issues, who.Key());
    NothingToSend(issue, 0, who.Key());
    NoStep(who, issue);
    OneStep(who, issue, act.command);
    if act.target.Key() == who.Key() { SameKeySameIdentity(act.target, who); }
  }

  lemma SameKeySameIdentity(a: Identity, b: Identity)
    requires Proper(a) && Proper(b) && a.Key() == b.Key()
    ensures a == b
  {
    var issues := map[a.Key() := NO_ISSUE.(issueKey := a.Key(), kind := a.kind, courseSlug := a.courseSlug,
                                           assignmentID := a.assignmentID)];
    StoredIdentity(issues, b);
  }

  lemma ActKeepsWellKeyed(env: Env, issues: map<string, Issue>, act: Act)
    requires WellKeyed(issues) && Possible(act)
    ensures WellKeyed(AfterAct(env, issues, act))
  {
    hide PolledIssues;
    match act
    case Polled(baseline, sentAt, previous, fetched, now) =>
      PollKeepsWellKeyed(env, issues, sentAt, baseline, previous, fetched, now);
    case Commanded(target, command) =>
      CommandsKeepWellKeyed(issues, target, command);
  }

  /** Refinement: over any run of polls and commands the stored issue is the run of its own steps, and
      the events kept for it to be sent are as many as that run notifies. */
  lemma {:induction false} RunsRefineTheLifecycle(env: Env, who: Identity, issues: map<string, Issue>, acts: seq<Act>)
    requires WellKeyed(issues) && Proper(who) && forall i | 0 <= i < |acts| :: Possible(acts[i])
    decreases |acts|
    ensures Stored(AfterActs(env, issues, acts), who.Key()) == Run(who, Stored(issues, who.Key()),
                                                                   Steps(env, who, acts))
    ensures SentFor(env, issues, acts, who.Key()) == Notifications(who, Stored(issues, who.Key()),
                                                                   Steps(env, who, acts))
  {
    hide WellKeyed, Proper, Possible, AfterAct, StepsOf, KeptBy, ForIssue, ToSend, Stored;
    if acts == [] {
      NoStep(who, Stored(issues, who.Key()));
    } else {
      var act, after := acts[0], AfterAct(env, issues, acts[0]);
      ActIsAStep(env, who, issues, act);
      RunsRefineTheLifecycle(env, who, after, acts[1..]);
      StepsJoin(who, Stored(issues, who.Key()), StepsOf(env, who, act), Steps(env, who, acts[1..]));
    }
  }

  lemma ActIsAStep(env: Env, who: Identity, issues: map<string, Issue>, act: Act)
    requires WellKeyed(issues) && Proper(who) && Possible(act)
    ensures WellKeyed(AfterAct(env, issues, act))
    ensures Stored(AfterAct(env, issues, act), who.Key()) == Run(who, Stored(issues, who.Key()), StepsOf(env, who, act))
    ensures ToSend(ForIssue(KeptBy(env, issues, act), who.Key())) ==
            Notifications(who, Stored(issues, who.Key()), StepsOf(env, who, act))
  {
    hide WellKeyed, Proper, AfterAct, StepsOf, KeptBy, ForIssue, ToSend, Stored, Run, Notifications;
    ActKeepsWellKeyed(env, issues, act);
    if act.Polled? { PollIsAStep(env, who, issues, act); } else { CommandIsAStep(env, who, issues, act); }
  }

  lemma {:induction false} StepsObserveTheIssue(env: Env, who: Identity, acts: seq<Act>)
    requires Proper(who) && forall i | 0 <= i < |acts| :: Possible(acts[i])
    ensures OfIdentity(who, Steps(env, who, acts))
  {
    if acts != [] {
      hide EventsOf, ForIssue, SnapshotKey, Keyed, Possible;
      StepsObserveTheIssue(env, who, acts[1..]);
      ActObservesTheIssue(env, who, acts[0]);
    }
  }

  lemma ActObservesTheIssue(env: Env, who: Identity, act: Act)
    requires Proper(who) && Possible(act)
    ensures OfIdentity(who, StepsOf(env, who, act))
  {
    hide EventsOf, ForIssue, SnapshotKey, Keyed, Diagnose, IssueKey, EvidenceHash;
    if act.Polled? && ForIssue(EventsIn(env, act), who.Key()) != [] {
      var seen := ForIssue(EventsIn(env, act), who.Key());
      var e := seen[|seen| - 1];
      assert e in seen;
      ForIssueMembers(EventsIn(env, act), who.Key(), e);
      if act.baseline {
        IssueEventsComeFromDiagnoses(env, act.previous, act.fetched, act.now, e);
        var s, d :| s in act.fetched && d in Diagnose(env, s, act.now) && e == MakeIssueEvent(env, s, d, act.now);
        DiagnosesAreFewAndDistinct(env, s, act.now);
        SameKeySameIdentity(Identity(d.kind, s.courseSlug, s.assignmentID), who);
      }
    }
  }

  /** Clearing the acknowledgement of an issue that is not stored loses no notification of a diagnosis. */
  lemma AbsentIssuesLoseNothing(env: Env, s: Snapshot, d: Diagnosis, now: Instant, at: Instant)
    requires d in Diagnose(env, s, now)
    ensures var who, event := Identity(d.kind, s.courseSlug, s.assignmentID), MakeIssueEvent(env, s, d, now);
            Notifications(who, NO_ISSUE, [Unacknowledge, Observe(event, at)]) ==
            Notifications(who, NO_ISSUE, [Observe(event, at)])
  {
    hide EvidenceHash, IssueKey;
    var who, event := Identity(d.kind, s.courseSlug, s.assignmentID), MakeIssueEvent(env, s, d, now);
    DiagnosesAreRanked(env, s, d, now);
    assert Escalated(NO_ISSUE, event);
    UnacknowledgeHidesANotification(who, NO_ISSUE, event, at);
  }

  lemma DiagnosesAreRanked(env: Env, s: Snapshot, d: Diagnosis, now: Instant)
    requires d in Diagnose(env, s, now)
    ensures d.severity.Rank() > 0
  {
    hide Diagnose;
    DiagnosesOfOneKind(env, s, now, d);
  }

  /** An issue that is open and was diagnosed is notified again by its next diagnosis exactly if a field of
      the assignment that it shows has changed since, and never for a stale draft; that is for a digest
      without collisions and without blank results. */
  lemma NotifiedAgainOnChange(env: Env, who: Identity, issue: Issue, s: Snapshot, d: Diagnosis, now: Instant,
                              s': Snapshot, d': Diagnosis, now': Instant)
    requires d in Diagnose(env, s, now) && d' in Diagnose(env, s', now') && d.kind == d'.kind
    requires forall a, b | env.digest(a) == env.digest(b) :: a == b
    requires forall a :: !Blank(env.digest(a))
    requires issue.phase != Silenced && issue.phase != Acknowledged
    ensures var seen := Apply(who, issue, Observe(MakeIssueEvent(env, s, d, now), now));
            Notifications(who, seen, [Observe(MakeIssueEvent(env, s', d', now'), now')]) ==
            if !d.kind.StaleDraft? && s.details != s'.details then 1 else 0
  {
    var first, next := MakeIssueEvent(env, s, d, now), MakeIssueEvent(env, s', d', now');
    EvidenceIsOfTheFields(env, s, d, now, s', d', now');
    DiagnosesOfOneKind(env, s, now, d);
    DiagnosesOfOneKind(env, s', now', d');
    DiagnosesAreFewAndDistinct(env, s', now');
    assert first.issueKey != "" by { assert first.issueKey[0] == 'a'; }
    assert Blank("");
    hide Diagnose, IssueKey, EvidenceOf, Blank, Apply;
    NotifiedAgainExactly(who, issue, first, next, now, now');
    OneObservation(who, Apply(who, issue, Observe(first, now)), next, now');
  }

  /** Over whole runs: while an issue is observed with one severity and evidence, the events kept for it
      to be sent are at most the one it was armed for, and one more for each resolution or
      acknowledgement in between. */
  lemma RunsNotifyOnce(env: Env, who: Identity, issues: map<string, Issue>, acts: seq<Act>, event: Event)
    requires WellKeyed(issues) && Proper(who) && forall i | 0 <= i < |acts| :: Possible(acts[i])
    requires Unchanged(event, Steps(env, who, acts))
    ensures SentFor(env, issues, acts, who.Key()) <=
            (if Armed(Stored(issues, who.Key()), event) then 1 else 0) + Rearmings(Steps(env, who, acts))
    ensures Stored(AfterActs(env, issues, acts), who.Key()).notifyCount ==
            Stored(issues, who.Key()).notifyCount + SentFor(env, issues, acts, who.Key())
  {
    hide Steps, AfterActs, SentFor, Armed, WellKeyed, Stored;
    RunsRefineTheLifecycle(env, who, issues, acts);
    StepsObserveTheIssue(env, who, acts);
    var steps := Steps(env, who, acts);
    OneNotificationPerUnchangedIssue(who, Stored(issues, who.Key()), event, steps);
    NotifyCountIsConserved(who, Stored(issues, who.Key()), steps);
  }

  /** And while an acknowledgement or a silence stays active over all observations, none is kept to be sent. */
  lemma NothingSentWhileSuppressed(env: Env, who: Identity, issues: map<string, Issue>, acts: seq<Act>)
    requires WellKeyed(issues) && Proper(who) && forall i | 0 <= i < |acts| :: Possible(acts[i])
    requires forall i | 0 <= i < |Steps(env, who, acts)| ::
               Steps(env, who, acts)[i].Observe? && AckActive(Stored(issues, who.Key()), Steps(env, who, acts)[i].at)
    ensures SentFor(env, issues, acts, who.Key()) == 0
  {
    hide Steps, SentFor, WellKeyed, Stored;
    RunsRefineTheLifecycle(env, who, issues, acts);
    NothingWhileSuppressed(who, Stored(issues, who.Key()), Steps(env, who, acts));
  }

  // ----- The commands over whole runs -----

  lemma CommandFirst(env: Env, who: Identity, issues: map<string, Issue>, command: Step, acts: seq<Act>)
    requires WellKeyed(issues) && Proper(who) && forall i | 0 <= i < |acts| :: Possible(acts[i])
    requires command.Acknowledge? || command.Unacknowledge?
    ensures var run := [Commanded(who, command)] + acts;
            var commanded := Apply(who, Stored(issues, who.Key()), command);
            && Stored(AfterActs(env, issues, run), who.Key()) == Run(who, commanded, Steps(env, who, acts))
            && SentFor(env, issues, run, who.Key()) == Notifications(who, commanded, Steps(env, who, acts))
  {
    hide WellKeyed, AfterActs, SentFor, Stored, IssueKey;
    var run := [Commanded(who, command)] + acts;
    assert run[0] == Commanded(who, command) && run[1..] == acts;
    RunsRefineTheLifecycle(env, who, issues, run);
    assert Steps(env, who, run) == [command] + Steps(env, who, acts);
    assert ([command] + Steps(env, who, acts))[1..] == Steps(env, who, acts);
  }

  /** Silenced from a command on: over any run in which the issue is only observed, none of its events is
      kept to be sent, and it stays silenced. */
  lemma SilencedOverRuns(env: Env, who: Identity, issues: map<string, Issue>, ackUntil: Instant, actor: string,
                         reason: string, acts: seq<Act>)
    requires WellKeyed(issues) && Proper(who) && forall i | 0 <= i < |acts| :: Possible(acts[i])
    requires forall i | 0 <= i < |Steps(env, who, acts)| :: Steps(env, who, acts)[i].Observe?
    ensures var run := [Commanded(who, Acknowledge(ackUntil, true, actor, reason))] + acts;
            && SentFor(env, issues, run, who.Key()) == 0
            && Stored(AfterActs(env, issues, run), who.Key()).phase == Silenced
  {
    hide WellKeyed, AfterActs, SentFor, Stored, Steps, Run, Notifications, Apply;
    CommandFirst(env, who, issues, Acknowledge(ackUntil, true, actor, reason), acts);
    SilenceIsForGood(who, Stored(issues, who.Key()), ackUntil, actor, reason, Steps(env, who, acts));
  }

  /** Acknowledged from a command on: over any run in which the issue is only observed, and only before
      the time, none of its events is kept to be sent; the first event of it at that time or later is, if
      it asks for it, and ends the acknowledgement. */
  lemma AcknowledgedOverRuns(env: Env, who: Identity, issues: map<string, Issue>, ackUntil: Instant, actor: string,
                             reason: string, acts: seq<Act>, last: Act, event: Event, at: Instant)
    requires WellKeyed(issues) && Proper(who) && (forall i | 0 <= i < |acts| :: Possible(acts[i])) && Possible(last)
    requires forall i | 0 <= i < |Steps(env, who, acts)| ::
               Steps(env, who, acts)[i].Observe? && Steps(env, who, acts)[i].at < ackUntil
    requires StepsOf(env, who, last) == [Observe(event, at)] && ackUntil <= at
    ensures var run := [Commanded(who, Acknowledge(ackUntil, false, actor, reason))] + acts;
            && SentFor(env, issues, run, who.Key()) == 0
            && Stored(AfterActs(env, issues, run), who.Key()).phase == Acknowledged
    ensures var run := [Commanded(who, Acknowledge(ackUntil, false, actor, reason))] + (acts + [last]);
            && SentFor(env, issues, run, who.Key()) == (if event.shouldNotify then 1 else 0)
            && Stored(AfterActs(env, issues, run), who.Key()).phase == Open
            && Stored(AfterActs(env, issues, run), who.Key()).ackUntil == 0
  {
    hide WellKeyed, AfterActs, SentFor, Stored, Run, Notifications, Apply, StepsOf;
    var command, issue := Acknowledge(ackUntil, false, actor, reason), Stored(issues, who.Key());
    CommandFirst(env, who, issues, command, acts);
    CommandFirst(env, who, issues, command, acts + [last]);
    StepsAppend(env, who, acts, last);
    var acknowledged, steps := Apply(who, issue, command), Steps(env, who, acts);
    AcknowledgedUntil(who, issue, ackUntil, actor, reason, steps);
    AcknowledgementEnds(who, issue, ackUntil, actor, reason, steps, event, at);
    StepsJoin(who, acknowledged, steps, [Observe(event, at)]);
    OneStep(who, Run(who, acknowledged, steps), Observe(event, at));
  }

  lemma {:induction false} StepsAppend(env: Env, who: Identity, acts: seq<Act>, last: Act)
    ensures Steps(env, who, acts + [last]) == Steps(env, who, acts) + StepsOf(env, who, last)
  {
    hide StepsOf;
    if acts == [] {
      assert acts + [last] == [last] && [last][1..] == [];
    } else {
      assert (acts + [last])[1..] == acts[1..] + [last];
      StepsAppend(env, who, acts[1..], last);
    }
  }
}

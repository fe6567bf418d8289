/** One stored issue under polls and operator commands. */
module IssueLifecycle {
  import opened AssignmentModel
  import opened Clock
  import opened Text

  predicate AckActive(issue: Issue, now: Instant) {
    match issue.phase
    case Silenced => true
    case Acknowledged => issue.ackUntil != 0 && now < issue.ackUntil
    case _ => false
  }

  /** A change that makes a known issue worth a new notification. */
  predicate Escalated(existing: Issue, event: Event) {
    || event.severity.Rank() > existing.severity.Rank()
    || (!Blank(event.evidenceHash) && existing.evidenceHash != "" && event.evidenceHash != existing.evidenceHash)
  }

  /** The issue after one observation, and whether its event stays in the poll's event list. */
  function ApplyIssueState(existing: Issue, event: Event, now: Instant): (r: (Issue, bool)) {
    var first := existing.issueKey == "";
    var wasResolved := existing.phase == Resolved;
    var ackActive := AckActive(existing, now);
    var ackExpired := existing.phase == Acknowledged && !ackActive;
    var updated := Issue(event.issueKey, event.kind, event.severity, event.courseSlug, event.assignmentID,
                         event.details,
                         if existing.firstDetectedAt == 0 || wasResolved then now else existing.firstDetectedAt,
                         now, existing.lastNotifiedAt, 0, Open, existing.notifyCount,
                         event.evidenceHash, event.reasonCode,
                         existing.ackBy, existing.ackReason, existing.ackUntil);
    if ackActive then (updated.(phase := existing.phase), false)
    else
      var cleared := if ackExpired then updated.(ackBy := "", ackReason := "", ackUntil := 0) else updated;
      if event.shouldNotify && (first || wasResolved || (!first && Escalated(existing, event)) || ackExpired) then
        (cleared.(lastNotifiedAt := now, notifyCount := cleared.notifyCount + 1), true)
      else
        (cleared, first && !event.shouldNotify)
  }

  predicate Notifies(existing: Issue, event: Event, now: Instant) {
    ApplyIssueState(existing, event, now).1 && event.shouldNotify
  }

  /** Everything that happens to one issue: a poll that observes it, a poll that fetched its
      assignment without the diagnosis, and the two operator commands. */
  datatype Step =
    | Observe(event: Event, at: Instant)
    | Resolve(at: Instant)
    | Acknowledge(ackUntil: Instant, silenced: bool, actor: string, reason: string)
    | Unacknowledge

  function ResolvedIssue(issue: Issue, now: Instant): Issue {
    issue.(phase := Resolved, resolvedAt := now, lastDetectedAt := now)
  }

  function AcknowledgedIssue(issue: Issue, key: string, kind: EventKind, slug: string, id: string,
                             ackUntil: Instant, silenced: bool, actor: string, reason: string): Issue {
    issue.(issueKey := key, kind := kind, courseSlug := slug, assignmentID := id,
           ackBy := actor, ackReason := reason, ackUntil := ackUntil,
           phase := if silenced then Silenced else Acknowledged)
  }

  function UnacknowledgedIssue(issue: Issue, key: string, kind: EventKind, slug: string, id: string): Issue {
    issue.(issueKey := key, kind := kind, courseSlug := slug, assignmentID := id,
           ackBy := "", ackReason := "", ackUntil := 0, phase := Open)
  }

  /** The identity under which an issue is stored and commanded. */
  datatype Identity = Identity(kind: EventKind, courseSlug: string, assignmentID: string) {
    function Key(): string {
      IssueKey(kind, courseSlug, assignmentID)
    }

    predicate Observes(event: Event) {
      event.issueKey == Key() && event.kind == kind && event.courseSlug == courseSlug
          && event.assignmentID == assignmentID
    }
  }

  function Apply(who: Identity, issue: Issue, step: Step): Issue {
    match step
    case Observe(event, at) => ApplyIssueState(issue, event, at).0
    case Resolve(at) => if issue.issueKey == "" || issue.phase == Resolved then issue else ResolvedIssue(issue, at)
    case Acknowledge(until, silenced, actor, reason) =>
      AcknowledgedIssue(issue, who.Key(), who.kind, who.courseSlug, who.assignmentID, until, silenced, actor, reason)
    case Unacknowledge => UnacknowledgedIssue(issue, who.Key(), who.kind, who.courseSlug, who.assignmentID)
  }

  function Run(who: Identity, issue: Issue, steps: seq<Step>): Issue
    decreases |steps|
  {
    if steps == [] then issue else Run(who, Apply(who, issue, steps[0]), steps[1..])
  }

  function Notifications(who: Identity, issue: Issue, steps: seq<Step>): nat
    decreases |steps|
  {
    if steps == [] then 0
    else
      (if steps[0].Observe? && Notifies(issue, steps[0].event, steps[0].at) then 1 else 0) +
      Notifications(who, Apply(who, issue, steps[0]), steps[1..])
  }

  /** The steps after which the issue may be notified again. */
  function Rearmings(steps: seq<Step>): nat {
    if steps == [] then 0
    else (if steps[0].Resolve? || steps[0].Acknowledge? then 1 else 0) + Rearmings(steps[1..])
  }

  ghost predicate OfIdentity(who: Identity, steps: seq<Step>) {
    forall i | 0 <= i < |steps| && steps[i].Observe? :: who.Observes(steps[i].event)
  }

  /** Every observation reports the severity and the evidence of `event`. */
  ghost predicate Unchanged(event: Event, steps: seq<Step>) {
    forall i | 0 <= i < |steps| && steps[i].Observe? ::
      steps[i].event.severity == event.severity && steps[i].event.evidenceHash == event.evidenceHash
  }

  /** Over any run, `notifyCount` grows by exactly the notifying observations. */
  lemma {:induction false} NotifyCountIsConserved(who: Identity, issue: Issue, steps: seq<Step>)
    decreases |steps|
    ensures Run(who, issue, steps).notifyCount == issue.notifyCount + Notifications(who, issue, steps)
  {
    if steps != [] {
      NotifyCountIsConserved(who, Apply(who, issue, steps[0]), steps[1..]);
    }
  }

  /** Whether the next unsuppressed observation of this event would notify. */
  predicate Armed(issue: Issue, event: Event) {
    issue.issueKey == "" || issue.phase == Resolved || issue.phase == Acknowledged || Escalated(issue, event)
  }

  /** A notification uses the arming up: observing the same severity and evidence never re-arms. */
  lemma ObservationSpendsArming(issue: Issue, seen: Event, event: Event, now: Instant)
    requires seen.issueKey != "" && seen.severity == event.severity && seen.evidenceHash == event.evidenceHash
    ensures var after := ApplyIssueState(issue, seen, now).0;
            && after.notifyCount == issue.notifyCount + (if Notifies(issue, seen, now) then 1 else 0)
            && (Armed(after, event) ==> Armed(issue, event) && !Notifies(issue, seen, now))
            && (Notifies(issue, seen, now) ==> Armed(issue, event))
  {
  }

  /** One notification per unchanged issue: from any stored issue, over any run in which severity
      and evidence stay the same, there is at most the one notification the issue was armed for,
      plus one for each resolution or acknowledgement in between. */
  lemma {:induction false} OneNotificationPerUnchangedIssue(who: Identity, issue: Issue, event: Event, steps: seq<Step>)
    requires OfIdentity(who, steps) && Unchanged(event, steps)
    decreases |steps|
    ensures Notifications(who, issue, steps) <= (if Armed(issue, event) then 1 else 0) + Rearmings(steps)
  {
    if steps != [] {
      assert who.Key()[0] == 'a';
      var step := steps[0];
      if step.Observe? {
        assert steps[0].event.severity == event.severity;
      }
      assert forall i | 0 <= i < |steps[1..]| :: steps[1..][i] == steps[i + 1];
      OneNotificationPerUnchangedIssue(who, Apply(who, issue, step), event, steps[1..]);
    }
  }

  /** The plain case: nothing but observations of the same event notifies at most once. */
  lemma AtMostOneNotification(who: Identity, issue: Issue, event: Event, steps: seq<Step>)
    requires OfIdentity(who, steps) && Unchanged(event, steps)
    requires forall i | 0 <= i < |steps| :: steps[i].Observe?
    ensures Notifications(who, issue, steps) <= 1
  {
    NoRearmings(steps);
    OneNotificationPerUnchangedIssue(who, issue, event, steps);
  }

  lemma {:induction false} NoRearmings(steps: seq<Step>)
    requires forall i | 0 <= i < |steps| :: steps[i].Observe?
    ensures Rearmings(steps) == 0
  {
    if steps != [] {
      NoRearmings(steps[1..]);
    }
  }

  /** And exactly once precisely when the issue was armed, is not silenced, and some observation
      comes when its acknowledgement is not in force. */
  lemma {:induction false} NotifiedExactlyWhenArmed(who: Identity, issue: Issue, event: Event, steps: seq<Step>)
    requires OfIdentity(who, steps) && Unchanged(event, steps)
    requires forall i | 0 <= i < |steps| :: steps[i].Observe? && steps[i].event.shouldNotify
    decreases |steps|
    ensures Notifications(who, issue, steps) ==
            if Armed(issue, event) && exists i | 0 <= i < |steps| :: !AckActive(issue, steps[i].at) then 1 else 0
  {
    if steps != [] {
      assert who.Key()[0] == 'a';
      assert forall i | 0 <= i < |steps[1..]| :: steps[1..][i] == steps[i + 1];
      var after := Apply(who, issue, steps[0]);
      if AckActive(issue, steps[0].at) {
        NotifiedExactlyWhenArmed(who, after, event, steps[1..]);
        SuppressionLasts(issue, after, steps);
      } else {
        assert !Armed(after, event);
        OneNotificationPerUnchangedIssue(who, after, event, steps[1..]);
        NoRearmings(steps[1..]);
      }
    }
  }

  lemma SuppressionLasts(issue: Issue, after: Issue, steps: seq<Step>)
    requires steps != [] && forall i | 0 <= i < |steps| :: steps[i].Observe?
    requires AckActive(issue, steps[0].at) && after.phase == issue.phase && after.ackUntil == issue.ackUntil
    ensures (exists i | 0 <= i < |steps| :: !AckActive(issue, steps[i].at)) <==>
            (exists i | 0 <= i < |steps[1..]| :: !AckActive(after, steps[1..][i].at))
  {
    if i :| 0 <= i < |steps| && !AckActive(issue, steps[i].at) {
      assert steps[1..][i - 1] == steps[i];
    }
  }

  /** While an acknowledgement or a silence is in force no observation notifies, whatever it reports. */
  lemma {:induction false} NothingWhileSuppressed(who: Identity, issue: Issue, steps: seq<Step>)
    requires forall i | 0 <= i < |steps| :: steps[i].Observe? && AckActive(issue, steps[i].at)
    decreases |steps|
    ensures Notifications(who, issue, steps) == 0
    ensures Run(who, issue, steps).phase == issue.phase && Run(who, issue, steps).ackUntil == issue.ackUntil
  {
    if steps != [] {
      assert forall i | 0 <= i < |steps[1..]| :: steps[1..][i] == steps[i + 1];
      NothingWhileSuppressed(who, Apply(who, issue, steps[0]), steps[1..]);
    }
  }

  // ----- What the commands promise -----

  /** A silence is for good: until another command or a resolution, nothing that is observed, however
      much later, notifies or ends it. */
  lemma {:induction false} SilenceIsForGood(who: Identity, issue: Issue, ackUntil: Instant, actor: string,
                                            reason: string,
                                            steps: seq<Step>)
    requires forall i | 0 <= i < |steps| :: steps[i].Observe?
    ensures var silenced := Apply(who, issue, Acknowledge(ackUntil, true, actor, reason));
            && Run(who, silenced, steps).phase == Silenced
            && Notifications(who, silenced, steps) == 0
  {
    var silenced := Apply(who, issue, Acknowledge(ackUntil, true, actor, reason));
    forall i | 0 <= i < |steps| ensures AckActive(silenced, steps[i].at) {
    }
    NothingWhileSuppressed(who, silenced, steps);
  }

  /** An acknowledgement holds until its time: nothing that is observed before then notifies or ends it. */
  lemma {:induction false} AcknowledgedUntil(who: Identity, issue: Issue, ackUntil: Instant, actor: string,
                                             reason: string,
                                             steps: seq<Step>)
    requires forall i | 0 <= i < |steps| :: steps[i].Observe? && steps[i].at < ackUntil
    ensures var acknowledged := Apply(who, issue, Acknowledge(ackUntil, false, actor, reason));
            && Run(who, acknowledged, steps).phase == Acknowledged
            && Run(who, acknowledged, steps).ackUntil == ackUntil
            && Notifications(who, acknowledged, steps) == 0
  {
    var acknowledged := Apply(who, issue, Acknowledge(ackUntil, false, actor, reason));
    forall i | 0 <= i < |steps| ensures AckActive(acknowledged, steps[i].at) {
    }
    NothingWhileSuppressed(who, acknowledged, steps);
  }

  /** And no longer: the first observation at its time or later notifies if its event asks for it, even
      of the same severity and evidence, and clears the acknowledgement. */
  lemma AcknowledgementEnds(who: Identity, issue: Issue, ackUntil: Instant, actor: string, reason: string,
                            steps: seq<Step>, event: Event, at: Instant)
    requires forall i | 0 <= i < |steps| :: steps[i].Observe? && steps[i].at < ackUntil
    requires ackUntil <= at
    ensures var held := Run(who, Apply(who, issue, Acknowledge(ackUntil, false, actor, reason)), steps);
            var after := Apply(who, held, Observe(event, at));
            && Notifications(who, held, [Observe(event, at)]) == (if event.shouldNotify then 1 else 0)
            && after.phase == Open && after.ackBy == "" && after.ackReason == "" && after.ackUntil == 0
            && after.notifyCount == held.notifyCount + if event.shouldNotify then 1 else 0
  {
    AcknowledgedUntil(who, issue, ackUntil, actor, reason, steps);
    var held := Run(who, Apply(who, issue, Acknowledge(ackUntil, false, actor, reason)), steps);
    OneObservation(who, held, event, at);
  }

  predicate Worse(than: Severity, s: Severity) {
    match than
    case Unranked => s in {Info, Warn, Error, Critical}
    case Info => s in {Warn, Error, Critical}
    case Warn => s in {Error, Critical}
    case Error => s == Critical
    case Critical => false
  }

  /** An open issue that was observed before is notified again exactly when what is observed next is
      more severe or comes with other evidence; a resolved one whenever it returns. */
  lemma NotifiedAgainExactly(who: Identity, issue: Issue, first: Event, next: Event, at: Instant, at': Instant)
    requires issue.phase != Silenced && issue.phase != Acknowledged && first.issueKey != ""
    ensures var seen := Apply(who, issue, Observe(first, at));
            Notifications(who, seen, [Observe(next, at')]) == 1 <==>
            && next.shouldNotify
            && (|| Worse(first.severity, next.severity)
                || (!Blank(next.evidenceHash) && first.evidenceHash != "" && next.evidenceHash != first.evidenceHash))
    ensures var gone := Apply(who, Apply(who, issue, Observe(first, at)), Resolve(at));
            Notifications(who, gone, [Observe(next, at')]) == if next.shouldNotify then 1 else 0
    ensures issue.issueKey == "" ==> Notifications(who, issue, [Observe(first, at)]) == if first.shouldNotify then 1
              else 0
  {
    hide Blank;
    SeveritiesAreOrdered();
    OneObservation(who, issue, first, at);
    OneObservation(who, Apply(who, issue, Observe(first, at)), next, at');
    OneObservation(who, Apply(who, Apply(who, issue, Observe(first, at)), Resolve(at)), next, at');
  }

  /** The first event of an issue is always kept, even one that is not to be sent; a later one only if it is sent. */
  lemma KeptExactly(issue: Issue, event: Event, at: Instant)
    ensures issue.issueKey == "" && issue.phase != Silenced && issue.phase != Acknowledged ==>
              ApplyIssueState(issue, event, at).1
    ensures issue.issueKey != "" ==> (ApplyIssueState(issue, event, at).1 <==> Notifies(issue, event, at))
  {
    hide Blank;
  }

  /** An issue tells since when it is there, and when it was last seen: over any run of observations, from no
      stored issue or a resolved one, the times of the first and the last of them; and it is not resolved. */
  lemma {:induction false} DetectedFromTo(who: Identity, issue: Issue, steps: seq<Step>)
    requires issue.firstDetectedAt == 0 || issue.phase == Resolved
    requires steps != [] && forall i | 0 <= i < |steps| :: steps[i].Observe? && steps[i].at > 0
    ensures var after := Run(who, issue, steps);
            && after.firstDetectedAt == steps[0].at && after.lastDetectedAt == steps[|steps| - 1].at
            && after.resolvedAt == 0 && after.phase != Resolved
  {
    var first := Apply(who, issue, steps[0]);
    StillDetected(who, first, steps[1..]);
    hide ApplyIssueState;
  }

  lemma {:induction false} StillDetected(who: Identity, issue: Issue, steps: seq<Step>)
    requires issue.firstDetectedAt != 0 && issue.phase != Resolved && issue.resolvedAt == 0
    requires forall i | 0 <= i < |steps| :: steps[i].Observe?
    decreases |steps|
    ensures var after := Run(who, issue, steps);
            && after.firstDetectedAt == issue.firstDetectedAt && after.resolvedAt == 0 && after.phase != Resolved
            && after.lastDetectedAt == if steps == [] then issue.lastDetectedAt else steps[|steps| - 1].at
  {
    if steps != [] {
      StillDetected(who, Apply(who, issue, steps[0]), steps[1..]);
    }
  }

  /** An observation never stores a resolved issue. */
  lemma ObservedIsUnresolved(issue: Issue, event: Event, now: Instant)
    ensures ApplyIssueState(issue, event, now).0.phase != Resolved
    ensures ApplyIssueState(issue, event, now).0.issueKey == event.issueKey
  {
  }

  /** Clearing an acknowledgement hides the next notification exactly from an issue that was due one
      although nothing escalates: resolved, or acknowledged until a time that has passed, or without a
      key. A diagnosis escalates every issue without a key, which has no severity, so that one loses
      nothing. Clearing brings a notification forward exactly if it ends a suppression of something
      worse. */
  lemma UnacknowledgeHidesANotification(who: Identity, issue: Issue, event: Event, at: Instant)
    requires who.Observes(event)
    ensures var with, without := Notifications(who, issue, [Unacknowledge, Observe(event, at)]),
                                 Notifications(who, issue, [Observe(event, at)]);
            && (with < without <==>
                && event.shouldNotify && !AckActive(issue, at) && !Escalated(issue, event)
                && (issue.issueKey == "" || issue.phase == Resolved || issue.phase == Acknowledged))
            && (without < with <==> event.shouldNotify && AckActive(issue, at) && Escalated(issue, event))
  {
    var reopened := Apply(who, issue, Unacknowledge);
    assert who.Key()[0] == 'a';
    assert [Unacknowledge, Observe(event, at)][1..] == [Observe(event, at)];
    OneObservation(who, issue, event, at);
    OneObservation(who, reopened, event, at);
  }

  lemma OneObservation(who: Identity, issue: Issue, event: Event, at: Instant)
    ensures Notifications(who, issue, [Observe(event, at)]) == if Notifies(issue, event, at) then 1 else 0
  {
    assert [Observe(event, at)][1..] == [];
  }
}

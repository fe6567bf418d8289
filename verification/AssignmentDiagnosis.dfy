/** From a fetched assignment to its snapshot, its diagnoses and its events. */
module AssignmentDiagnosis {
  import opened AssignmentModel
  import opened Clock
  import opened Text
  import opened Wrappers

  /** What the monitor takes from outside: time parsing, hashing, number printing, configuration. */
  datatype Env = Env(parseTime: string -> Option<Instant>, digest: seq<string> -> string, show: int -> string,
                     sanitize: string -> string,
                     staleGrace: int, cooldown: int)
  {
    function Grace(): nat { if staleGrace <= 0 then 7 * DAY else staleGrace }
    function Cooldown(): nat { if cooldown <= 0 then 15 * MINUTE else cooldown }
  }

  predicate IsPublished(status: string) {
    ToLower(Trim(status)) in {"published", "open", "opened"}
  }

  predicate IsDraft(status: string) {
    ToLower(Trim(status)) == "draft"
  }

  /** The text is a time, and `now` is past it by more than `grace`. */
  predicate Past(env: Env, text: string, grace: nat, now: Instant) {
    env.parseTime(text).Some? && now > env.parseTime(text).value + grace
  }

  predicate InvalidWindow(env: Env, d: Details) {
    var start, end := env.parseTime(d.startAt), env.parseTime(d.endAt);
    start.None? || end.None? || end.value < start.value
  }

  function ReasonOf(kind: EventKind): string {
    match kind
    case InvalidTime => "ASSIGNMENT_TIME_INVALID"
    case MissingProblem => "PUBLISHED_ASSIGNMENT_PROBLEM_MISSING"
    case StaleDraft => "ASSIGNMENT_WINDOW_STALE"
    case PublishDelayed => "PUBLISHED_AT_PAST_STATUS_NOT_PUBLISHED"
    case DraftPastStart => "PUBLISHED_AT_MISSING_DRAFT_START_PAST"
    case _ => ""
  }

  function DiagnosisOf(kind: EventKind): Diagnosis {
    Diagnosis(kind, if kind.StaleDraft? then Info else Warn, ReasonOf(kind), !kind.StaleDraft?, true)
  }

  function TimeDiagnosis(env: Env, s: Snapshot): seq<Diagnosis> {
    if InvalidWindow(env, s.details) then [DiagnosisOf(InvalidTime)] else []
  }

  function StatusDiagnosis(env: Env, s: Snapshot, now: Instant): (ds: seq<Diagnosis>)
    ensures |ds| <= 1
    ensures ds != [] ==> ds[0].kind.IsIssue() && !ds[0].kind.InvalidTime? && ds[0] == DiagnosisOf(ds[0].kind)
  {
    var d := s.details;
    if IsPublished(d.status) then
      if Blank(d.problemID) then [DiagnosisOf(MissingProblem)] else []
    else if IsDraft(d.status) && Past(env, d.endAt, env.Grace(), now) then [DiagnosisOf(StaleDraft)]
    else if Past(env, d.publishedAt, 0, now) then [DiagnosisOf(PublishDelayed)]
    else if Blank(d.publishedAt) && IsDraft(d.status) && !d.publishedAtOmitted && Past(env, d.startAt, 0, now) then
      [DiagnosisOf(DraftPastStart)]
    else []
  }

  function Diagnose(env: Env, s: Snapshot, now: Instant): seq<Diagnosis> {
    TimeDiagnosis(env, s) + StatusDiagnosis(env, s, now)
  }

  ghost predicate Yields(env: Env, s: Snapshot, now: Instant, kind: EventKind) {
    exists d :: d in Diagnose(env, s, now) && d.kind == kind
  }

  /** One assignment has at most two diagnoses, never two of one type; every diagnosis is one of
      the five issue types and counted, and all but the stale draft ask for a notification. */
  lemma DiagnosesAreFewAndDistinct(env: Env, s: Snapshot, now: Instant)
    ensures var ds := Diagnose(env, s, now);
            && |ds| <= 2
            && (forall i, j | 0 <= i < j < |ds| :: ds[i].kind != ds[j].kind)
            && (forall d | d in ds :: d.kind.IsIssue() && d.shouldCount && (d.shouldNotify <==> !d.kind.StaleDraft?))
  {
    hide InvalidWindow, StatusDiagnosis, ReasonOf;
  }

  /** The kind of a diagnosis decides its severity and its reason. */
  lemma DiagnosesOfOneKind(env: Env, s: Snapshot, now: Instant, d: Diagnosis)
    requires d in Diagnose(env, s, now)
    ensures d == DiagnosisOf(d.kind) && d.severity == if d.kind.StaleDraft? then Info else Warn
  {
    hide InvalidWindow, StatusDiagnosis, ReasonOf;
  }

  lemma NotBoth(status: string)
    ensures !(IsPublished(status) && IsDraft(status))
  {
  }

  predicate KindAt(ds: seq<Diagnosis>, i: nat, kind: EventKind) {
    i < |ds| && ds[i].kind == kind
  }

  lemma YieldsOneOfTwo(env: Env, s: Snapshot, now: Instant, kind: EventKind)
    ensures Yields(env, s, now, kind) <==>
            KindAt(Diagnose(env, s, now), 0, kind) || KindAt(Diagnose(env, s, now), 1, kind)
  {
    DiagnosesAreFewAndDistinct(env, s, now);
    hide Diagnose;
    var ds := Diagnose(env, s, now);
    if KindAt(ds, 0, kind) { assert ds[0] in ds; }
    if KindAt(ds, 1, kind) { assert ds[1] in ds; }
  }

  /** Each issue type by its own condition on the fields of the snapshot, whatever order the branches are
      tried in. */
  lemma DiagnosisMeaning(env: Env, s: Snapshot, now: Instant)
    ensures var d, status := s.details, ToLower(Trim(s.details.status));
            var start, end, publish := env.parseTime(d.startAt), env.parseTime(d.endAt), env.parseTime(d.publishedAt);
            var published := status == "published" || status == "open" || status == "opened";
            var grace := if env.staleGrace <= 0 then 7 * DAY else env.staleGrace;
            var stale := status == "draft" && end.Some? && now > end.value + grace;
            var late := publish.Some? && now > publish.value;
            && (Yields(env, s, now, InvalidTime) <==> start.None? || end.None? || end.value < start.value)
            && (Yields(env, s, now, MissingProblem) <==> published && Trim(d.problemID) == "")
            && (Yields(env, s, now, StaleDraft) <==> stale)
            && (Yields(env, s, now, PublishDelayed) <==> !published && !stale && late)
            && (Yields(env, s, now, DraftPastStart) <==>
                && status == "draft" && !stale && !late
                && Trim(d.publishedAt) == "" && !d.publishedAtOmitted && start.Some? && now > start.value)
  {
    NotBoth(s.details.status);
    StatusMeaning(s.details.status);
    hide IsPublished, IsDraft, Blank;
    assert Blank(s.details.problemID) <==> Trim(s.details.problemID) == "" by { BlankMeaning(s.details.problemID); }
    assert Blank(s.details.publishedAt) <==> Trim(s.details.publishedAt) == "" by {
      BlankMeaning(s.details.publishedAt);
    }
    BranchMeaning(env, s, now);
    hide Trim, ToLower;
    hide Yields;
  }

  lemma BlankMeaning(s: string)
    ensures Blank(s) <==> Trim(s) == ""
  {
  }

  lemma StatusMeaning(status: string)
    ensures IsPublished(status) <==> ToLower(Trim(status)) == "published" || ToLower(Trim(status)) == "open"
                                     || ToLower(Trim(status)) == "opened"
    ensures IsDraft(status) <==> ToLower(Trim(status)) == "draft"
  {
  }

  lemma BranchMeaning(env: Env, s: Snapshot, now: Instant)
    ensures var d := s.details;
            var unpublished := !IsPublished(d.status);
            var stale := IsDraft(d.status) && Past(env, d.endAt, env.Grace(), now);
            && (Yields(env, s, now, InvalidTime) <==> InvalidWindow(env, d))
            && (Yields(env, s, now, MissingProblem) <==> IsPublished(d.status) && Blank(d.problemID))
            && (Yields(env, s, now, StaleDraft) <==> stale)
            && (Yields(env, s, now, PublishDelayed) <==> unpublished && !stale && Past(env, d.publishedAt, 0, now))
            && (Yields(env, s, now, DraftPastStart) <==>
                && IsDraft(d.status) && !stale && !Past(env, d.publishedAt, 0, now)
                && Blank(d.publishedAt) && !d.publishedAtOmitted && Past(env, d.startAt, 0, now))
  {
    NotBoth(s.details.status);
    hide IsPublished, IsDraft, Past, InvalidWindow, Blank, ReasonOf;
    forall kind ensures Yields(env, s, now, kind) <==>
        KindAt(Diagnose(env, s, now), 0, kind) || KindAt(Diagnose(env, s, now), 1, kind) {
      YieldsOneOfTwo(env, s, now, kind);
    }
    hide Yields;
  }

  // ----- Events -----

  function EvidenceOf(s: Snapshot, severity: string, d: Diagnosis): seq<string> {
    var t := s.details;
    [d.kind.Label(), severity, d.reasonCode, t.title, t.status, t.publishedAt,
     if t.publishedAtOmitted then "true" else "false", t.startAt, t.endAt, t.problemID, t.problemIDFallback]
  }

  function EvidenceHash(env: Env, s: Snapshot, severity: string, d: Diagnosis): string {
    env.digest(EvidenceOf(s, severity, d))
  }

  function SeverityText(s: Severity): string {
    match s
    case Unranked => ""
    case Info => "INFO"
    case Warn => "WARN"
    case Error => "ERROR"
    case Critical => "CRITICAL"
  }

  function MakeIssueEvent(env: Env, s: Snapshot, d: Diagnosis, now: Instant): Event {
    var key := IssueKey(d.kind, s.courseSlug, s.assignmentID);
    var hash := EvidenceHash(env, s, SeverityText(d.severity), d);
    Event(key + ":" + hash, key, d.kind, d.severity, s.courseSlug, s.assignmentID, s.details,
          d.reasonCode, hash, d.shouldNotify, d.shouldCount, now, NoPhase, 0, 0, 0, 0)
  }

  function MakeEvent(kind: EventKind, severity: Severity, s: Snapshot, field: string, value: string,
                     now: Instant): (e: Event)
    ensures e.kind == kind
  {
    Event(Join([kind.Label(), s.courseSlug, s.assignmentID, field, value], ':'), "", kind, severity,
          s.courseSlug, s.assignmentID, s.details, "", "", true, false, now, NoPhase, 0, 0, 0, 0)
  }

  function IssueEvents(env: Env, s: Snapshot, diagnoses: seq<Diagnosis>, now: Instant): (events: seq<Event>)
    ensures |events| == |diagnoses|
    ensures forall i | 0 <= i < |events| :: events[i] == MakeIssueEvent(env, s, diagnoses[i], now)
  {
    if diagnoses == [] then []
    else IssueEvents(env, s, diagnoses[..|diagnoses| - 1], now) +
         [MakeIssueEvent(env, s, diagnoses[|diagnoses| - 1], now)]
  }

  /** Two diagnoses of one kind come with the same evidence exactly if all shown fields of the snapshots are
      the same, for a digest without collisions. */
  lemma EvidenceIsOfTheFields(env: Env, s: Snapshot, d: Diagnosis, now: Instant, s': Snapshot, d': Diagnosis,
                              now': Instant)
    requires d in Diagnose(env, s, now) && d' in Diagnose(env, s', now')
    requires forall a, b | env.digest(a) == env.digest(b) :: a == b
    ensures MakeIssueEvent(env, s, d, now).evidenceHash == MakeIssueEvent(env, s', d', now').evidenceHash <==>
            d.kind == d'.kind && s.details == s'.details
  {
    DiagnosesOfOneKind(env, s, now, d);
    DiagnosesOfOneKind(env, s', now', d');
    DiagnosesAreFewAndDistinct(env, s, now);
    DiagnosesAreFewAndDistinct(env, s', now');
    AllLabelsDiffer(d.kind, d'.kind);
    hide Diagnose, EventKind.Label, IssueKey, ReasonOf, SeverityText;
    var a, b := EvidenceOf(s, SeverityText(d.severity), d), EvidenceOf(s', SeverityText(d'.severity), d');
    assert env.digest(a) == env.digest(b) <==> a == b;
    if a == b {
      assert a[0] == b[0] && a[1] == b[1] && a[2] == b[2] && a[3] == b[3] && a[4] == b[4] && a[5] == b[5]
               && a[6] == b[6] && a[7] == b[7]
             && a[8] == b[8] && a[9] == b[9] && a[10] == b[10];
      assert "true" != "false";
    }
  }

  predicate NoIssues(events: seq<Event>) {
    forall e | e in events :: !e.kind.IsIssue()
  }

  function OnlyIf(when: bool, e: Event): (events: seq<Event>)
    ensures !e.kind.IsIssue() ==> NoIssues(events)
    ensures forall x :: x in events <==> when && x == e
  {
    if when then [e] else []
  }

  function Both(a: seq<Event>, b: seq<Event>): (events: seq<Event>)
    ensures NoIssues(a) && NoIssues(b) ==> NoIssues(events)
    ensures forall e :: e in events <==> e in a || e in b
  {
    a + b
  }

  /** The events of the changes since the previous poll's snapshot. */
  function Diff(env: Env, prev: Option<Snapshot>, cur: Snapshot, now: Instant): (events: seq<Event>)
    ensures NoIssues(events)
  {
    hide MakeEvent, IsPublished, NoIssues, OnlyIf, Both;
    if prev.None? then
      OnlyIf(true, MakeEvent(AssignmentCreated, Info, cur, "created", cur.assignmentID, now))
    else
      var old' := prev.value;
      var published := OnlyIf(!IsPublished(old'.details.status) && IsPublished(cur.details.status),
                              MakeEvent(AssignmentPublished, Info, cur, "status", cur.details.status, now));
      var updated := OnlyIf(old'.details != cur.details,
                            MakeEvent(AssignmentUpdated, Info, cur, "updated",
                                      cur.updatedAt + cur.details.status + cur.details.startAt + cur.details.endAt
                                          + cur.details.problemID, now));
      var submitted := OnlyIf(cur.submitted > old'.submitted,
                              MakeEvent(SubmissionCountChanged, Info, cur, "submitted", env.show(cur.submitted), now));
      var graded := OnlyIf(cur.graded > old'.graded,
                           MakeEvent(GradingCompleted, Info, cur, "graded", env.show(cur.graded), now));
      var failed := OnlyIf(cur.failed > old'.failed,
                           MakeEvent(GradingFailed, Warn, cur, "failed", env.show(cur.failed), now));
      Both(Both(Both(Both(published, updated), submitted), graded), failed)
  }

  /** One of the ways in which an assignment that was seen before may have changed, and its event. */
  predicate Changes(env: Env, old': Snapshot, cur: Snapshot, now: Instant, e: Event) {
    match e.kind
    case AssignmentPublished =>
      && !IsPublished(old'.details.status) && IsPublished(cur.details.status)
      && e == MakeEvent(AssignmentPublished, Info, cur, "status", cur.details.status, now)
    case AssignmentUpdated =>
      && old'.details != cur.details
      && e == MakeEvent(AssignmentUpdated, Info, cur, "updated",
                        cur.updatedAt + cur.details.status + cur.details.startAt + cur.details.endAt
                            + cur.details.problemID, now)
    case SubmissionCountChanged =>
      && cur.submitted > old'.submitted
      && e == MakeEvent(SubmissionCountChanged, Info, cur, "submitted", env.show(cur.submitted), now)
    case GradingCompleted =>
      && cur.graded > old'.graded
      && e == MakeEvent(GradingCompleted, Info, cur, "graded", env.show(cur.graded), now)
    case GradingFailed =>
      && cur.failed > old'.failed
      && e == MakeEvent(GradingFailed, Warn, cur, "failed", env.show(cur.failed), now)
    case _ => false
  }

  lemma DiffIsTheChanges(env: Env, old': Snapshot, cur: Snapshot, now: Instant, e: Event)
    ensures e in Diff(env, Some(old'), cur, now) <==> Changes(env, old', cur, now, e)
  {
    hide IsPublished, MakeEvent, OnlyIf, Both, NoIssues, EventKind.IsIssue, EventKind.Label;
  }

  ghost predicate Reports(env: Env, prev: Option<Snapshot>, cur: Snapshot, now: Instant, kind: EventKind) {
    exists e :: e in Diff(env, prev, cur, now) && e.kind == kind
  }

  lemma ChangeReported(env: Env, old': Snapshot, cur: Snapshot, now: Instant, e: Event)
    ensures Changes(env, old', cur, now, e) ==> Reports(env, Some(old'), cur, now, e.kind)
  {
    hide Changes;
    DiffIsTheChanges(env, old', cur, now, e);
  }

  lemma OnlyChangesReported(env: Env, old': Snapshot, cur: Snapshot, now: Instant, kind: EventKind)
    ensures Reports(env, Some(old'), cur, now, kind) ==> exists e :: Changes(env, old', cur, now, e) && e.kind == kind
  {
    hide Changes;
    if e :| e in Diff(env, Some(old'), cur, now) && e.kind == kind {
      DiffIsTheChanges(env, old', cur, now, e);
    }
  }

  /** The change events of an assignment: one that it is there if it was not seen before; otherwise one for
      each way in which it changed. */
  lemma DiffMeaning(env: Env, prev: Option<Snapshot>, cur: Snapshot, now: Instant, kind: EventKind)
    ensures Reports(env, prev, cur, now, kind) <==>
            match kind
            case AssignmentCreated => prev.None?
            case AssignmentPublished =>
              && prev.Some? && ToLower(Trim(prev.value.details.status)) !in {"published", "open", "opened"}
              && ToLower(Trim(cur.details.status)) in {"published", "open", "opened"}
            case AssignmentUpdated => prev.Some? && prev.value.details != cur.details
            case SubmissionCountChanged => prev.Some? && cur.submitted > prev.value.submitted
            case GradingCompleted => prev.Some? && cur.graded > prev.value.graded
            case GradingFailed => prev.Some? && cur.failed > prev.value.failed
            case _ => false
  {
    hide EventKind.Label, Join;
    if prev.None? {
      assert MakeEvent(AssignmentCreated, Info, cur, "created", cur.assignmentID, now) in Diff(env, prev, cur, now);
    } else {
      OnlyChangesReported(env, prev.value, cur, now, kind);
      hide Reports, Diff, Trim, ToLower;
      ChangeReported(env, prev.value, cur, now,
                     MakeEvent(AssignmentPublished, Info, cur, "status", cur.details.status, now));
      ChangeReported(env, prev.value, cur, now,
                     MakeEvent(AssignmentUpdated, Info, cur, "updated",
                               cur.updatedAt + cur.details.status + cur.details.startAt + cur.details.endAt
                                   + cur.details.problemID, now));
      ChangeReported(env, prev.value, cur, now,
                     MakeEvent(SubmissionCountChanged, Info, cur, "submitted", env.show(cur.submitted), now));
      ChangeReported(env, prev.value, cur, now,
                     MakeEvent(GradingCompleted, Info, cur, "graded", env.show(cur.graded), now));
      ChangeReported(env, prev.value, cur, now,
                     MakeEvent(GradingFailed, Warn, cur, "failed", env.show(cur.failed), now));
    }
  }

  /** Each of them is about the assignment as it is now, and there is one of a kind. */
  lemma DiffEvents(env: Env, prev: Option<Snapshot>, cur: Snapshot, now: Instant, e: Event, e': Event)
    requires e in Diff(env, prev, cur, now) && e' in Diff(env, prev, cur, now)
    ensures e.kind == e'.kind <==> e == e'
    ensures && e.severity == (if e.kind.GradingFailed? then Warn else Info)
            && e.courseSlug == cur.courseSlug && e.assignmentID == cur.assignmentID && e.details == cur.details
            && e.shouldNotify && e.createdAt == now
  {
    hide EventKind.Label, Join, IsPublished;
    if prev.Some? {
      DiffIsTheChanges(env, prev.value, cur, now, e);
      DiffIsTheChanges(env, prev.value, cur, now, e');
      hide Diff;
    }
  }

  // ----- Fetching -----

  datatype Assignment = Assignment(id: string, details: Details, updatedAt: string)
  datatype Submissions = Submissions(submitted: int, graded: int, pending: int, failed: int)
  datatype Course = Course(slug: string, status: string, startAt: string, endAt: string)
  datatype Row = Row(slug: string, assignment: Assignment)

  /** The answers of the report service during one poll; `None` is a failed request. */
  datatype Report = Report(courses: Option<seq<Course>>, assignments: string -> Option<seq<Assignment>>,
                           detail: (string, string) -> Option<Assignment>,
                           submissions: (string, string) -> Option<Submissions>)

  datatype CourseClass = Active | Legacy | Unknown

  function Classify(env: Env, c: Course, now: Instant): CourseClass {
    if ToLower(Trim(c.status)) in {"closed", "archived", "ended", "legacy", "inactive"} then Legacy
    else if Past(env, c.endAt, 0, now) then Legacy
    else if Blank(c.status) && Blank(c.startAt) && Blank(c.endAt) then Unknown
    else Active
  }

  function Prefer(detail: string, summary: string): string {
    if Blank(detail) then summary else detail
  }

  function MergeDetail(summary: Assignment, detail: Assignment): Assignment {
    var s, d := summary.details, detail.details;
    Assignment(Prefer(detail.id, summary.id),
               Details(Prefer(d.title, s.title), Prefer(d.status, s.status), Prefer(d.publishedAt, s.publishedAt),
                       false,
                       Prefer(d.startAt, s.startAt), Prefer(d.endAt, s.endAt), Prefer(d.problemID, s.problemID),
                       if Blank(d.problemID) then s.problemIDFallback else d.problemIDFallback),
               Prefer(detail.updatedAt, summary.updatedAt))
  }

  predicate HasDetail(a: Assignment) {
    !(Blank(a.id) && Blank(a.details.title) && Blank(a.details.status) && Blank(a.details.publishedAt) &&
      Blank(a.details.startAt) && Blank(a.details.endAt) && Blank(a.details.problemID) && Blank(a.updatedAt))
  }

  /** Requests left in a poll: every detail request is spent, only successful submission requests are. */
  datatype Budget = Budget(details: int, submissions: int)

  const POLL_BUDGET := Budget(30, 30)

  predicate AsksForDetail(row: Row, b: Budget) {
    row.assignment.details.publishedAtOmitted && !Blank(row.assignment.id) && b.details > 0
  }

  function Hydrate(report: Report, row: Row, b: Budget): (Snapshot, Budget) {
    var asks := AsksForDetail(row, b);
    var detail := if asks then report.detail(row.slug, row.assignment.id) else None;
    var a := if detail.Some? && HasDetail(detail.value) then MergeDetail(row.assignment, detail.value)
          else row.assignment;
    var left := if asks then b.(details := b.details - 1) else b;
    var summary := if left.submissions > 0 then report.submissions(row.slug, a.id) else None;
    match summary
    case None => (Snapshot(row.slug, a.id, a.details, a.updatedAt, 0, 0, 0, 0), left)
    case Some(sub) =>
      (Snapshot(row.slug, a.id, a.details, a.updatedAt, sub.submitted, sub.graded, sub.pending, sub.failed),
       left.(submissions := left.submissions - 1))
  }

  /** The snapshots of a list of rows, in order, with the budget they leave. */
  function HydrateAll(report: Report, rows: seq<Row>): (r: (seq<Snapshot>, Budget))
    ensures |r.0| == |rows|
    ensures forall i | 0 <= i < |rows| :: r.0[i].courseSlug == rows[i].slug
  {
    if rows == [] then ([], POLL_BUDGET)
    else
      var before := HydrateAll(report, rows[..|rows| - 1]);
      var last := Hydrate(report, rows[|rows| - 1], before.1);
      (before.0 + [last.0], last.1)
  }

  function CourseRows(slug: string, assignments: seq<Assignment>): (rows: seq<Row>)
    ensures |rows| == |assignments|
    ensures forall i | 0 <= i < |rows| :: rows[i] == Row(slug, assignments[i])
  {
    if assignments == [] then []
    else CourseRows(slug, assignments[..|assignments| - 1]) + [Row(slug, assignments[|assignments| - 1])]
  }

  /** The rows of the courses whose assignment list was fetched. */
  function RowsOf(report: Report, courses: seq<Course>): (rows: seq<Row>)
    ensures forall row | row in rows :: report.assignments(row.slug).Some? && exists c ::
              c in courses && c.slug == row.slug
  {
    if courses == [] then []
    else
      var last := courses[|courses| - 1];
      assert last in courses;
      assert forall c | c in courses[..|courses| - 1] :: c in courses;
      var fetched := report.assignments(last.slug);
      RowsOf(report, courses[..|courses| - 1]) + if fetched.Some? then CourseRows(last.slug, fetched.value) else []
  }

  function ActiveCourses(env: Env, courses: seq<Course>, now: Instant): (active: seq<Course>)
    ensures forall c | c in active :: c in courses && Classify(env, c, now) == Active
  {
    if courses == [] then []
    else
      var last := courses[|courses| - 1];
      assert last in courses;
      assert forall c | c in courses[..|courses| - 1] :: c in courses;
      ActiveCourses(env, courses[..|courses| - 1], now) + if Classify(env, last, now) == Active then [last] else []
  }

  /** The snapshots a poll fetches. */
  function Fetched(env: Env, report: Report, courses: seq<Course>, now: Instant): seq<Snapshot> {
    HydrateAll(report, RowsOf(report, ActiveCourses(env, courses, now))).0
  }

  // ----- What is fetched -----

  /** A course counts as active unless its state says that it is over, its end has passed, or it says
      nothing about itself. */
  lemma ActiveMeaning(env: Env, c: Course, now: Instant)
    ensures Classify(env, c, now) == Active <==>
            && ToLower(Trim(c.status)) !in {"closed", "archived", "ended", "legacy", "inactive"}
            && !(env.parseTime(c.endAt).Some? && now > env.parseTime(c.endAt).value)
            && !(Trim(c.status) == "" && Trim(c.startAt) == "" && Trim(c.endAt) == "")
  {
    hide Trim, ToLower;
  }

  /** A course that is not active, or whose list failed, contributes no snapshot. */
  lemma FetchedFromListedCourses(env: Env, report: Report, courses: seq<Course>, now: Instant, s: Snapshot)
    requires s in Fetched(env, report, courses, now)
    ensures report.assignments(s.courseSlug).Some?
    ensures exists c :: c in courses && c.slug == s.courseSlug && Classify(env, c, now) == Active
  {
    var rows := RowsOf(report, ActiveCourses(env, courses, now));
    var i :| 0 <= i < |rows| && Fetched(env, report, courses, now)[i] == s;
    assert rows[i] in rows;
  }

  lemma {:induction false} ActiveAreListed(env: Env, courses: seq<Course>, now: Instant, c: Course)
    requires c in courses && Classify(env, c, now) == Active
    ensures c in ActiveCourses(env, courses, now)
  {
    hide Classify;
    var n := |courses| - 1;
    assert courses == courses[..n] + [courses[n]];
    if c in courses[..n] { ActiveAreListed(env, courses[..n], now, c); }
  }

  lemma {:induction false} ListedAreRows(report: Report, courses: seq<Course>, c: Course, a: Assignment)
    requires c in courses && report.assignments(c.slug).Some? && a in report.assignments(c.slug).value
    ensures Row(c.slug, a) in RowsOf(report, courses)
  {
    var n := |courses| - 1;
    assert courses == courses[..n] + [courses[n]];
    if c == courses[n] {
      var i :| 0 <= i < |report.assignments(c.slug).value| && report.assignments(c.slug).value[i] == a;
      assert CourseRows(c.slug, report.assignments(c.slug).value)[i] == Row(c.slug, a);
    } else {
      ListedAreRows(report, courses[..n], c, a);
    }
  }

  /** And every assignment of an active course whose list was fetched has a snapshot, whatever the budgets. */
  lemma EveryListedAssignmentIsFetched(env: Env, report: Report, courses: seq<Course>, now: Instant, c: Course,
                                       a: Assignment)
    requires c in courses && Classify(env, c, now) == Active
    requires report.assignments(c.slug).Some? && a in report.assignments(c.slug).value
    ensures exists s, b :: s in Fetched(env, report, courses, now) && s == Hydrate(report, Row(c.slug, a), b).0
  {
    ActiveAreListed(env, courses, now, c);
    ListedAreRows(report, ActiveCourses(env, courses, now), c, a);
    hide RowsOf, ActiveCourses, Hydrate, Classify, HydrateAll;
    var rows := RowsOf(report, ActiveCourses(env, courses, now));
    var i :| 0 <= i < |rows| && rows[i] == Row(c.slug, a);
    var b := HydratedAt(report, rows, i);
    var fetched := HydrateAll(report, rows).0;
    assert Fetched(env, report, courses, now) == fetched && fetched[i] in fetched;
  }

  lemma {:induction false} HydratedAt(report: Report, rows: seq<Row>, i: nat) returns (b: Budget)
    requires i < |rows|
    ensures HydrateAll(report, rows).0[i] == Hydrate(report, rows[i], b).0
  {
    hide Hydrate;
    if i == |rows| - 1 {
      b := HydrateAll(report, rows[..i]).1;
    } else {
      b := HydratedAt(report, rows[..|rows| - 1], i);
    }
  }

  function Filled(detail: string, listed: string): string {
    if Trim(detail) == "" then listed else detail
  }

  /** A snapshot shows what the list said, with every text that the detail has in its place: a detail is
      asked for if the list left the publication time out, and used if it says anything. */
  lemma HydratedFields(report: Report, row: Row, b: Budget)
    ensures var r, a, d := Hydrate(report, row, b).0, row.assignment, row.assignment.details;
            var answer := report.detail(row.slug, a.id);
            var used := && d.publishedAtOmitted && Trim(a.id) != "" && b.details > 0 && answer.Some?
                        && HasDetail(answer.value);
            && r.courseSlug == row.slug
            && (!used ==> r.assignmentID == a.id && r.details == d && r.updatedAt == a.updatedAt)
            && (used ==>
                  var e := answer.value.details;
                  && r.assignmentID == Filled(answer.value.id, a.id)
                  && r.updatedAt == Filled(answer.value.updatedAt, a.updatedAt)
                  && r.details == Details(Filled(e.title, d.title), Filled(e.status, d.status),
                                          Filled(e.publishedAt, d.publishedAt), false, Filled(e.startAt, d.startAt),
                                          Filled(e.endAt, d.endAt), Filled(e.problemID, d.problemID),
                                          if Trim(e.problemID) == "" then d.problemIDFallback
                                          else e.problemIDFallback))
  {
    hide Trim, HasDetail;
  }

  /** How many rows a detail would be asked for without a budget. */
  function Wanting(rows: seq<Row>): nat {
    if rows == [] then 0
    else
      var a := rows[|rows| - 1].assignment;
      Wanting(rows[..|rows| - 1]) + if a.details.publishedAtOmitted && Trim(a.id) != "" then 1 else 0
  }

  /** A poll asks for the details of the first thirty of them and no more, and stops counting submissions
      after thirty answers. */
  lemma {:induction false} BudgetsAreKept(report: Report, rows: seq<Row>)
    ensures var left := HydrateAll(report, rows).1;
            && left.details == (if Wanting(rows) >= 30 then 0 else 30 - Wanting(rows))
            && 0 <= left.submissions <= 30
  {
    hide Trim, MergeDetail, HasDetail;
    if rows != [] {
      BudgetsAreKept(report, rows[..|rows| - 1]);
    }
  }
}

/** Values the assignment monitor works on: snapshots, diagnoses, events and stored issues. */
module AssignmentModel {
  import opened Clock
  import opened Text

  /** What an event or an issue is about. The first five are the diagnosed issue types. */
  datatype EventKind =
    | InvalidTime | MissingProblem | StaleDraft | PublishDelayed | DraftPastStart
    | AssignmentCreated | AssignmentPublished | AssignmentUpdated
    | SubmissionCountChanged | GradingCompleted | GradingFailed
    | AdminApi(status: string)
    | NoKind
  {
    predicate IsIssue() {
      InvalidTime? || MissingProblem? || StaleDraft? || PublishDelayed? || DraftPastStart?
    }

    function Label(): string {
      match this
      case InvalidTime => "ASSIGNMENT_INVALID_TIME"
      case MissingProblem => "ASSIGNMENT_MISSING_PROBLEM"
      case StaleDraft => "ASSIGNMENT_STALE_DRAFT"
      case PublishDelayed => "ASSIGNMENT_PUBLISH_DELAYED"
      case DraftPastStart => "ASSIGNMENT_DRAFT_PAST_START"
      case AssignmentCreated => "ASSIGNMENT_CREATED"
      case AssignmentPublished => "ASSIGNMENT_PUBLISHED"
      case AssignmentUpdated => "ASSIGNMENT_UPDATED"
      case SubmissionCountChanged => "SUBMISSION_COUNT_CHANGED"
      case GradingCompleted => "GRADING_COMPLETED"
      case GradingFailed => "GRADING_FAILED"
      case AdminApi(status) => "WEB_ADMIN_API_" + status
      case NoKind => ""
    }
  }

  /** `Unranked` stands for every text the ranking does not know, the empty one included. */
  datatype Severity = Unranked | Info | Warn | Error | Critical {
    function Rank(): nat {
      match this
      case Unranked => 0
      case Info => 1
      case Warn => 2
      case Error => 3
      case Critical => 4
    }
  }

  /** Each severity ranks above the ones named before it. */
  lemma SeveritiesAreOrdered()
    ensures Unranked.Rank() < Info.Rank() < Warn.Rank() < Error.Rank() < Critical.Rank()
  {
  }

  /** The descriptive fields a snapshot hands on to its events and issues. */
  datatype Details = Details(title: string, status: string, publishedAt: string, publishedAtOmitted: bool,
                             startAt: string, endAt: string, problemID: string, problemIDFallback: string)

  datatype Snapshot = Snapshot(courseSlug: string, assignmentID: string, details: Details, updatedAt: string,
                               submitted: int, graded: int, pending: int, failed: int)

  datatype Diagnosis = Diagnosis(kind: EventKind, severity: Severity, reasonCode: string,
                                 shouldNotify: bool, shouldCount: bool)

  datatype Phase = NoPhase | Open | Acknowledged | Silenced | Resolved | OtherPhase(text: string)

  datatype Event = Event(fingerprint: string, issueKey: string, kind: EventKind, severity: Severity,
                         courseSlug: string, assignmentID: string, details: Details,
                         reasonCode: string, evidenceHash: string, shouldNotify: bool, shouldCount: bool,
                         createdAt: Instant,
                         phase: Phase, firstDetectedAt: Instant, lastDetectedAt: Instant,
                         lastNotifiedAt: Instant, notifyCount: int)

  datatype Issue = Issue(issueKey: string, kind: EventKind, severity: Severity,
                         courseSlug: string, assignmentID: string, details: Details,
                         firstDetectedAt: Instant, lastDetectedAt: Instant, lastNotifiedAt: Instant,
                         resolvedAt: Instant, phase: Phase, notifyCount: int,
                         evidenceHash: string, reasonCode: string,
                         ackBy: string, ackReason: string, ackUntil: Instant)

  const NO_DETAILS := Details("", "", "", false, "", "", "", "")
  const NO_ISSUE := Issue("", NoKind, Unranked, "", "", NO_DETAILS, 0, 0, 0, 0, NoPhase, 0, "", "", "", "", 0)

  /** What a lookup in the stored issues yields: the zero issue when the key is absent. */
  function Stored(issues: map<string, Issue>, key: string): Issue {
    if key in issues then issues[key] else NO_ISSUE
  }

  function SnapshotKey(courseSlug: string, assignmentID: string): string {
    courseSlug + ":" + assignmentID
  }

  function IssueKey(kind: EventKind, courseSlug: string, assignmentID: string): string {
    "assignment:" + kind.Label() + ":" + courseSlug + ":" + assignmentID
  }

  /** Slugs without ':' make snapshot keys, and issue keys, unambiguous. */
  lemma SnapshotKeysAgree(slug: string, id: string, slug': string, id': string)
    requires ':' !in slug && ':' !in slug'
    ensures SnapshotKey(slug, id) == SnapshotKey(slug', id') <==> slug == slug' && id == id'
  {
    if SnapshotKey(slug, id) == SnapshotKey(slug', id') {
      PrefixesAgree(slug, id, slug', id', ':');
    }
  }

  lemma LabelsAgree(k: EventKind, k': EventKind)
    requires k.IsIssue() && (k'.IsIssue() || k'.GradingFailed?)
    ensures ':' !in k.Label() && ':' !in k'.Label()
    ensures k.Label() == k'.Label() <==> k == k'
  {
    assert k == k' || k.Label()[11] != k'.Label()[11];
  }

  /** No two kinds of event share a label. */
  lemma AllLabelsDiffer(k: EventKind, k': EventKind)
    requires !k.AdminApi? && !k'.AdminApi?
    ensures k.Label() == k'.Label() <==> k == k'
  {
    LabelShape(k);
    LabelShape(k');
    hide EventKind.Label;
  }

  lemma LabelShape(k: EventKind)
    requires !k.AdminApi?
    ensures |k.Label()| == match k
                           case InvalidTime => 23 case MissingProblem => 26 case StaleDraft => 22
                           case PublishDelayed => 26 case DraftPastStart => 27 case AssignmentCreated => 18
                           case AssignmentPublished => 20 case AssignmentUpdated => 18
                           case SubmissionCountChanged => 24 case GradingCompleted => 17 case GradingFailed => 14
                           case NoKind => 0
    ensures k.MissingProblem? ==> k.Label()[11] == 'M'
    ensures k.PublishDelayed? ==> k.Label()[11] == 'P'
    ensures k.AssignmentCreated? ==> k.Label()[11] == 'C'
    ensures k.AssignmentUpdated? ==> k.Label()[11] == 'U'
  {
  }

  lemma JoinedKeysAgree(a: string, b: string, c: string, a': string, b': string, c': string)
    requires ':' !in a && ':' !in a' && ':' !in b && ':' !in b'
    requires "assignment:" + a + ":" + b + ":" + c == "assignment:" + a' + ":" + b' + ":" + c'
    ensures a == a' && b == b' && c == c'
  {
    var key := "assignment:" + a + ":" + b + ":" + c;
    assert key == "assignment" + ":" + (a + ":" + (b + ":" + c));
    assert key == "assignment" + ":" + (a' + ":" + (b' + ":" + c'));
    PrefixesAgree("assignment", a + ":" + (b + ":" + c), "assignment", a' + ":" + (b' + ":" + c'), ':');
    PrefixesAgree(a, b + ":" + c, a', b' + ":" + c', ':');
    PrefixesAgree(b, c, b', c', ':');
  }

  lemma IssueKeysAgree(k: EventKind, slug: string, id: string, k': EventKind, slug': string, id': string)
    requires k.IsIssue() && (k'.IsIssue() || k'.GradingFailed?)
    requires ':' !in slug && ':' !in slug'
    ensures IssueKey(k, slug, id) == IssueKey(k', slug', id') <==> k == k' && slug == slug' && id == id'
  {
    LabelsAgree(k, k');
    if IssueKey(k, slug, id) == IssueKey(k', slug', id') {
      JoinedKeysAgree(k.Label(), slug, id, k'.Label(), slug', id');
    }
  }

  /** An issue key is its snapshot key behind a prefix. */
  lemma IssueKeysFollowSnapshotKeys(k: EventKind, slug: string, id: string, slug': string, id': string)
    ensures IssueKey(k, slug, id) == IssueKey(k, slug', id') <==> SnapshotKey(slug, id) == SnapshotKey(slug', id')
  {
    hide EventKind.Label;
    var prefix := "assignment:" + k.Label() + ":";
    assert IssueKey(k, slug, id) == prefix + SnapshotKey(slug, id);
    assert IssueKey(k, slug', id') == prefix + SnapshotKey(slug', id');
    assert (prefix + SnapshotKey(slug, id))[|prefix|..] == SnapshotKey(slug, id);
    assert (prefix + SnapshotKey(slug', id'))[|prefix|..] == SnapshotKey(slug', id');
  }

  lemma {:induction false} FirstColon(s: string) returns (i: nat)
    requires ':' in s
    ensures i < |s| && s[i] == ':' && ':' !in s[..i]
  {
    if s[0] == ':' {
      i := 0;
    } else {
      var j := FirstColon(s[1..]);
      i := j + 1;
      assert s[..i] == [s[0]] + s[1..][..j];
    }
  }

  /** Another way to read a key that has a second colon; the slug it starts with has none. */
  lemma OtherReading(slug: string, id: string) returns (slug': string, id': string)
    requires ':' in slug
    ensures slug' != slug && ':' !in slug' && SnapshotKey(slug', id') == SnapshotKey(slug, id)
  {
    var i := FirstColon(slug);
    slug', id' := slug[..i], slug[i + 1..] + ":" + id;
    assert slug == slug[..i] + ":" + slug[i + 1..];
  }

  lemma LongerReading(slug: string, id: string) returns (slug': string, id': string)
    requires ':' in id
    ensures slug' != slug && SnapshotKey(slug', id') == SnapshotKey(slug, id)
  {
    var i := FirstColon(id);
    slug', id' := slug + ":" + id[..i], id[i + 1..];
    assert id == id[..i] + ":" + id[i + 1..];
    assert |slug'| > |slug|;
  }

  /** The slug pattern of the commands admits ':'. A key is shared with an assignment of another course
      exactly if slug or id has one, and with one of a colon-free course exactly if the slug has. */
  lemma ColonsCollide(slug: string, id: string)
    ensures (exists slug', id' :: slug' != slug && SnapshotKey(slug', id') == SnapshotKey(slug, id)) <==>
            ':' in slug || ':' in id
    ensures (exists slug', id' ::
               slug' != slug && ':' !in slug' && SnapshotKey(slug', id') == SnapshotKey(slug, id)) <==>
            ':' in slug
  {
    if ':' in slug {
      var slug', id' := OtherReading(slug, id);
    } else if ':' in id {
      var slug', id' := LongerReading(slug, id);
    }
    forall slug', id' | slug' != slug && SnapshotKey(slug', id') == SnapshotKey(slug, id)
      ensures ':' in slug || (':' in slug' && ':' in id)
    {
      if ':' !in slug { SharedKeyHasColon(slug, id, slug', id'); }
    }
  }

  lemma SharedKeyHasColon(slug: string, id: string, slug': string, id': string)
    requires ':' !in slug && slug' != slug && SnapshotKey(slug', id') == SnapshotKey(slug, id)
    ensures ':' in slug' && ':' in id
  {
    if ':' !in slug' {
      SnapshotKeysAgree(slug, id, slug', id');
    } else {
      var i := FirstColon(slug');
      assert slug' + ":" + id' == slug'[..i] + [':'] + (slug'[i + 1..] + ":" + id');
      PrefixesAgree(slug, id, slug'[..i], slug'[i + 1..] + ":" + id', ':');
      assert id[|slug'| - i - 1] == ':';
    }
  }

  /** The same for the issues of one type. */
  lemma ColonIssuesCollide(k: EventKind, slug: string, id: string)
    ensures (exists slug', id' :: slug' != slug && IssueKey(k, slug', id') == IssueKey(k, slug, id)) <==>
            ':' in slug || ':' in id
    ensures (exists slug', id' ::
               slug' != slug && ':' !in slug' && IssueKey(k, slug', id') == IssueKey(k, slug, id)) <==>
            ':' in slug
  {
    hide IssueKey, SnapshotKey;
    ColonsCollide(slug, id);
    forall slug', id' ensures IssueKey(k, slug', id') == IssueKey(k, slug, id) <==>
        SnapshotKey(slug', id') == SnapshotKey(slug, id) {
      IssueKeysFollowSnapshotKeys(k, slug', id', slug, id);
    }
  }
}

/** Request paths, path patterns and what can be decided about patterns alone.

    A path is the list of its segments, so "/" is one empty segment and a trailing slash adds one.
    A pattern matches a literal segment by equality, `*` and a variable match one segment that is
    not empty, and a trailing `**` matches any number of segments: this is what is assumed of the
    framework's pattern parser. */
module PathPatterns {

  datatype Method = GET | POST | PUT | PATCH | DELETE | HEAD | OPTIONS | UNLISTED

  /** Segments that a catalog names have a constructor of their own; `Other` is for the texts of all
      further segments. */
  datatype Segment =
    Empty | Activate | Actuator | Admin | Api | ApiDocs | Assignments | Auth | Blogs | Cache | Collaborators |
    Copy | Course | Courses | Docs | Drafts | Enrollments | Health | Images | IndexHtml | Internal |
    Invalidation | InviteMail | Lectures | Login | Logout | Lookup | Me | OnlineJudge | Outline | Password |
    Ping | Post | Posts | Problems | ProfileImage | Refresh | Report | Reset | ResetPassword | Role |
    Scheduled | ServiceAvailability | Stream | SubmissionStatuses | Submissions | SwaggerUi | SwaggerUiHtml |
    Sync | Testcases | UploadUrl | Users | V1 | V2 | V3 | Weeks | Other(text: string)

  /** A pattern with one literal or one variable at a time; `Deep` is a trailing `**`. */
  datatype Pattern = End | Deep | Lit(name: Segment, rest: Pattern) | Star(rest: Pattern)

  predicate Matches(p: Pattern, path: seq<Segment>) {
    match p
    case End => path == []
    case Deep => true
    case Lit(name, rest) => path != [] && path[0] == name && Matches(rest, path[1..])
    case Star(rest) => path != [] && path[0] != Empty && Matches(rest, path[1..])
  }

  // ----- Two patterns at a time -----

  /** Some path may match both. */
  predicate Overlap(p: Pattern, q: Pattern) {
    match p
    case End => q.End? || q.Deep?
    case Deep => true
    case Lit(name, rest) =>
      || q.Deep?
      || (q.Lit? && q.name == name && Overlap(rest, q.rest))
      || (q.Star? && name != Empty && Overlap(rest, q.rest))
    case Star(rest) =>
      || q.Deep?
      || (q.Lit? && q.name != Empty && Overlap(rest, q.rest))
      || (q.Star? && Overlap(rest, q.rest))
  }

  /** Every path that matches `q` matches `p`. */
  predicate Covers(p: Pattern, q: Pattern) {
    match p
    case End => q.End?
    case Deep => true
    case Lit(name, rest) => q.Lit? && q.name == name && Covers(rest, q.rest)
    case Star(rest) => ((q.Lit? && q.name != Empty) || q.Star?) && Covers(rest, q.rest)
  }

  lemma {:induction false} OverlapIsNeeded(p: Pattern, q: Pattern, path: seq<Segment>)
    requires Matches(p, path) && Matches(q, path)
    ensures Overlap(p, q)
  {
    if (p.Lit? || p.Star?) && !q.Deep? {
      OverlapIsNeeded(p.rest, q.rest, path[1..]);
    }
  }

  lemma {:induction false} CoversMatches(p: Pattern, q: Pattern, path: seq<Segment>)
    requires Covers(p, q) && Matches(q, path)
    ensures Matches(p, path)
  {
    if p.Lit? || p.Star? {
      CoversMatches(p.rest, q.rest, path[1..]);
    }
  }

  // ----- Lists -----

  datatype List<T> = Nil | Cons(head: T, tail: List<T>)

  function Append<T>(a: List<T>, b: List<T>): List<T> {
    match a
    case Nil => b
    case Cons(x, rest) => Cons(x, Append(rest, b))
  }

  predicate AnyMatches(patterns: List<Pattern>, path: seq<Segment>) {
    match patterns
    case Nil => false
    case Cons(p, rest) => Matches(p, path) || AnyMatches(rest, path)
  }

  predicate AnyOverlaps(patterns: List<Pattern>, q: Pattern) {
    match patterns
    case Nil => false
    case Cons(p, rest) => Overlap(p, q) || AnyOverlaps(rest, q)
  }

  predicate AnyCovers(patterns: List<Pattern>, q: Pattern) {
    match patterns
    case Nil => false
    case Cons(p, rest) => Covers(p, q) || AnyCovers(rest, q)
  }

  /** What patterns say about each other decides, where it can, what they say about a path. */
  lemma {:induction false} PatternsDecide(patterns: List<Pattern>, q: Pattern, path: seq<Segment>)
    requires Matches(q, path)
    ensures AnyMatches(patterns, path) ==> AnyOverlaps(patterns, q)
    ensures AnyCovers(patterns, q) ==> AnyMatches(patterns, path)
  {
    match patterns
    case Nil =>
    case Cons(p, rest) =>
      PatternsDecide(rest, q, path);
      if Matches(p, path) { OverlapIsNeeded(p, q, path); }
      if Covers(p, q) { CoversMatches(p, q, path); }
  }
}

/** What a role may do by this catalog, whatever the order of its rules: exactly what an anonymous caller, a
    user and an organizer may read and change. */
module AccessReach {
  import opened AccessCatalog
  import opened AccessPolicy
  import opened AdminAreas
  import opened PathPatterns
  import opened Wrappers

  // ----- Content and admin areas -----

  /** The first two segments of posts, blogs and lectures, and of users. */
  predicate ContentHead(a: Segment, b: Segment) {
    (a == V1 && b == Posts) || (a == V2 && b in {Post, Posts, Blogs, Lectures, Users})
  }

  predicate InContent(path: seq<Segment>) {
    |path| >= 2 && ContentHead(path[0], path[1])
  }

  /** All of these patterns name their first two segments, as content or as something else. */
  predicate AllHeaded(patterns: List<Pattern>, content: bool) {
    match patterns
    case Nil => true
    case Cons(p, rest) =>
      && p.Lit?
      && (if p.rest.Lit? then ContentHead(p.name, p.rest.name) == content
          else !content && (p.rest.End? || (p.name != V1 && p.name != V2)))
      && AllHeaded(rest, content)
  }

  lemma {:induction false} HeadsMatch(patterns: List<Pattern>, content: bool, path: seq<Segment>)
    requires AllHeaded(patterns, content) && AnyMatches(patterns, path)
    ensures InContent(path) == content
  {
    var Cons(p, rest) := patterns;
    if Matches(p, path) {
      if p.rest.Lit? {
        Behind(p.name, p.rest.name, p.rest.rest, path);
      } else if p.rest.End? {
        assert Matches(p.rest, path[1..]);
      }
    } else {
      HeadsMatch(rest, content, path);
    }
  }

  lemma Behind(a: Segment, b: Segment, rest: Pattern, path: seq<Segment>)
    ensures Matches(Lit(a, Lit(b, rest)), path) <==>
            |path| >= 2 && path[0] == a && path[1] == b && Matches(rest, path[2..])
  {
    if |path| >= 2 {
      assert path[1..][1..] == path[2..];
      assert Matches(Lit(b, rest), path[1..]) <==> path[1] == b && Matches(rest, path[2..]);
    } else if |path| == 1 {
      assert !Matches(Lit(b, rest), path[1..]);
    }
  }

  /** The path is these three segments. */
  predicate Three(path: seq<Segment>, a: Segment, b: Segment, c: Segment) {
    |path| == 3 && path[0] == a && path[1] == b && path[2] == c
  }

  predicate InAreas(path: seq<Segment>) {
    exists a :: Matches(Everything(a), path)
  }

  /** All of these patterns lie below the admin areas. */
  predicate AllInside(patterns: List<Pattern>) {
    match patterns
    case Nil => true
    case Cons(p, rest) => (exists a :: Covers(Everything(a), p)) && AllInside(rest)
  }

  lemma {:induction false} InsideMatches(patterns: List<Pattern>, path: seq<Segment>)
    requires AllInside(patterns) && AnyMatches(patterns, path)
    ensures InAreas(path)
  {
    var Cons(p, rest) := patterns;
    if Matches(p, path) {
      var a :| Covers(Everything(a), p);
      CoversMatches(Everything(a), p, path);
    } else {
      InsideMatches(rest, path);
    }
  }

  // ----- Lists of rules at a time -----

  /** The rule can say something about a request with this method. */
  predicate Speaks(r: AccessRule, m: Method) {
    r.AnyExchange? || r.verb.None? || r.verb.value == m
  }

  predicate AllRequire(rules: List<AccessRule>, m: Method, requirement: Requirement) {
    rules.Nil? || ((Speaks(rules.head, m) ==> rules.head.requirement == requirement)
                   && AllRequire(rules.tail, m, requirement))
  }

  predicate AllLeave(rules: List<AccessRule>, m: Method) {
    rules.Nil? || ((Speaks(rules.head, m) ==> rules.head.Paths? && AllHeaded(rules.head.paths, false))
                   && AllLeave(rules.tail, m))
  }

  lemma {:induction false} RequiredByAll(rules: List<AccessRule>, m: Method, requirement: Requirement,
                                         path: seq<Segment>)
    requires AllRequire(rules, m, requirement)
    ensures Decide(rules, m, path) == None || Decide(rules, m, path) == Some(requirement)
  {
    if rules.Cons? { RequiredByAll(rules.tail, m, requirement, path); }
  }

  lemma {:induction false} LeftByAll(rules: List<AccessRule>, m: Method, path: seq<Segment>)
    requires AllLeave(rules, m) && InContent(path)
    ensures Decide(rules, m, path) == None
  {
    if rules.Cons? {
      LeftByAll(rules.tail, m, path);
      if Applies(rules.head, m, path) { HeadsMatch(rules.head.paths, false, path); }
    }
  }

  lemma First(r: AccessRule, rest: List<AccessRule>, m: Method, path: seq<Segment>)
    ensures Decide(Cons(r, rest), m, path) ==
            if Applies(r, m, path) then Some(r.requirement) else Decide(rest, m, path)
  {
  }

  /** The catalog group by group. */
  lemma ByGroups(m: Method, path: seq<Segment>)
    ensures var public, account := Decide(PublicRules(), m, path), Decide(AccountRules(), m, path);
            var admin, reader := Decide(AdminRules(), m, path), Decide(ReaderRules(), m, path);
            Decide(GlobalRules(), m, path) ==
            if public.Some? then public
            else if Applies(PublicServiceOpenapiGet(), m, path) then Some(PermitAll)
            else if account.Some? then account
            else if admin.Some? then admin
            else if reader.Some? then reader
            else Decide(WriterRules(), m, path)
  {
    DocumentsAreOpen();
    hide PublicRules, AccountRules, AdminRules, ReaderRules, WriterRules, PublicServiceOpenapiGet, Append, Decide,
      Applies;
    var writers := WriterRules();
    var readers := Append(ReaderRules(), writers);
    var admins := Append(AdminRules(), readers);
    var accounts := Append(AccountRules(), admins);
    DecideJoins(PublicRules(), Cons(PublicServiceOpenapiGet(), accounts), m, path);
    First(PublicServiceOpenapiGet(), accounts, m, path);
    DecideJoins(AccountRules(), admins, m, path);
    DecideJoins(AdminRules(), readers, m, path);
    DecideJoins(ReaderRules(), writers, m, path);
  }

  // ----- What may be changed -----

  /** Logging in and out, activation, and the message that invalidates the cache. */
  function Sessions(): List<Pattern> {
    Cons(Lit(V1, Lit(Auth, Deep)),
    Cons(Lit(V2, Lit(Auth, Lit(Login, End))),
    Cons(Lit(V2, Lit(Auth, Lit(Refresh, End))),
    Cons(Lit(V2, Lit(Auth, Lit(Logout, End))),
    Cons(Lit(Activate, End),
    Cons(Lit(V2, Lit(Activate, End)),
    Cons(Lit(Internal, Lit(V1, Lit(Cache, Lit(Invalidation, End)))),
    Nil)))))))
  }

  function ContentLists(): List<Pattern> {
    Cons(Lit(V1, Lit(Posts, End)),
    Cons(Lit(V2, Lit(Post, End)),
    Cons(Lit(V2, Lit(Posts, End)),
    Cons(Lit(V2, Lit(Blogs, End)),
    Cons(Lit(V2, Lit(Lectures, End)),
    Nil)))))
  }

  function ContentItems(): List<Pattern> {
    Cons(Lit(V1, Lit(Posts, Star(End))),
    Cons(Lit(V2, Lit(Post, Star(End))),
    Cons(Lit(V2, Lit(Posts, Star(End))),
    Cons(Lit(V2, Lit(Blogs, Star(End))),
    Cons(Lit(V2, Lit(Lectures, Star(End))),
    Nil)))))
  }

  function ContentParts(): List<Pattern> {
    Cons(Lit(V2, Lit(Posts, Star(Lit(Collaborators, End)))),
    Cons(Lit(V1, Lit(Posts, Lit(Images, End))),
    Cons(Lit(V2, Lit(Post, Lit(Images, End))),
    Cons(Lit(V2, Lit(Post, Lit(Images, Deep))),
    Cons(Lit(V2, Lit(Posts, Lit(Images, End))),
    Nil)))))
  }

  /** Writing content: an item is posted to its list, and changed or deleted in its place; to a post belong
      its collaborators and images. */
  predicate WritesContent(m: Method, path: seq<Segment>) {
    || (m == POST && (AnyMatches(ContentLists(), path) || AnyMatches(ContentParts(), path)))
    || ((m == PATCH || m == DELETE) && AnyMatches(ContentItems(), path))
  }

  lemma PublicChanges(m: Method, path: seq<Segment>)
    requires m != GET && m != OPTIONS
    ensures Decide(PublicRules(), m, path) == if m == POST && AnyMatches(Sessions(), path) then Some(PermitAll)
              else None
  {
    hide Matches, Decide;
    var last := Cons(PublicIndexGet(), Cons(PublicRootOpenapiGet(), Nil));
    var fifth := Cons(PublicPingGet(), last);
    var fourth := Cons(PublicCacheInvalidationPost(), fifth);
    var third := Cons(PublicV2AuthSessionPost(), fourth);
    var second := Cons(PublicV1AuthPost(), third);
    assert PublicRules() == Cons(PreflightOptions(), second);
    First(PreflightOptions(), second, m, path);
    First(PublicV1AuthPost(), third, m, path);
    First(PublicV2AuthSessionPost(), fourth, m, path);
    First(PublicCacheInvalidationPost(), fifth, m, path);
    First(PublicPingGet(), last, m, path);
    First(PublicIndexGet(), Cons(PublicRootOpenapiGet(), Nil), m, path);
    First(PublicRootOpenapiGet(), Nil, m, path);
    NoRules(m, path);
    SessionRules(path);
    hide Applies;
  }

  lemma NoRules(m: Method, path: seq<Segment>)
    ensures Decide(Nil, m, path) == None
  {
  }

  lemma SessionRules(path: seq<Segment>)
    ensures AnyMatches(Sessions(), path) <==>
            || AnyMatches(PublicV1AuthPost().paths, path)
            || AnyMatches(PublicV2AuthSessionPost().paths, path)
            || AnyMatches(PublicCacheInvalidationPost().paths, path)
  {
    hide Matches;
    var cache := PublicCacheInvalidationPost().paths;
    var session := PublicV2AuthSessionPost().paths;
    assert Sessions() == Append(PublicV1AuthPost().paths, Append(session, cache));
    AnyJoins(session, cache, path);
    AnyJoins(PublicV1AuthPost().paths, Append(session, cache), path);
  }

  lemma {:induction false} AnyJoins(a: List<Pattern>, b: List<Pattern>, path: seq<Segment>)
    ensures AnyMatches(Append(a, b), path) <==> AnyMatches(a, path) || AnyMatches(b, path)
  {
    match a
    case Nil =>
    case Cons(_, rest) => AnyJoins(rest, b, path);
  }

  lemma OpenPathsLeave()
    ensures AllHeaded(PublicSwaggerGet().paths, false) && AllHeaded(PublicHealthGet().paths, false)
  {
    var last := PublicSwaggerGet().paths.tail.tail.tail;
    assert AllHeaded(last, false);
  }

  lemma OwnPathsLeave()
    ensures AllHeaded(AuthMeGet().paths, false) && AllHeaded(AuthMePost().paths, false)
    ensures AllHeaded(AuthMePatch().paths, false)
  {
  }

  lemma PasswordPathsLeave()
    ensures AllHeaded(AuthProfileImageUploadUrlPost().paths, false)
    ensures AllHeaded(AuthV1PasswordPost().paths, false) && AllHeaded(AuthV2PasswordPatch().paths, false)
  {
  }

  lemma AccountLeaves(m: Method)
    ensures AllLeave(AccountRules(), m)
  {
    OpenPathsLeave();
    OwnPathsLeave();
    PasswordPathsLeave();
    hide AllHeaded;
    var last := AccountRules().tail.tail.tail.tail.tail.tail;
    assert AllLeave(last.tail, m) && AllLeave(last, m);
    assert AllLeave(AccountRules().tail.tail.tail.tail, m);
    assert AllLeave(AccountRules().tail.tail, m);
  }

  lemma AccountChanges(m: Method)
    requires m != GET && m != OPTIONS
    ensures AllRequire(AccountRules(), m, USER_ORGANIZER_ADMIN)
  {
    var last := AccountRules().tail.tail.tail.tail.tail.tail;
    assert AllRequire(last.tail, m, USER_ORGANIZER_ADMIN) && AllRequire(last, m, USER_ORGANIZER_ADMIN);
    assert AllRequire(AccountRules().tail.tail.tail.tail, m, USER_ORGANIZER_ADMIN);
    assert AllRequire(AccountRules().tail.tail, m, USER_ORGANIZER_ADMIN);
  }

  lemma Inside(a: Area, p: Pattern, rest: List<Pattern>)
    requires Covers(Everything(a), p) && AllInside(rest)
    ensures AllInside(Cons(p, rest))
  {
  }

  lemma NothingInside()
    ensures AllInside(Nil)
  {
  }

  lemma {:induction false} CoversItself(p: Pattern)
    ensures Covers(p, p)
  {
    if p.Lit? || p.Star? { CoversItself(p.rest); }
  }

  lemma CoversBelow(a: Segment, b: Segment, rest: Pattern)
    ensures Covers(Lit(a, Lit(b, Deep)), Lit(a, Lit(b, rest)))
  {
    assert Covers(Deep, rest);
    assert Covers(Lit(b, Deep), Lit(b, rest));
  }

  lemma ServicePathsAreInside()
    ensures AllInside(AdminServiceAny().paths)
  {
    NothingInside();
    hide AllInside, Covers;
    CoversItself(Everything(V2Admin));
    CoversItself(Everything(AuthAdmin));
    CoversBelow(V1, Admin, Deep);
    CoversBelow(V1, Admin, End);
    Inside(V2Admin, Everything(V2Admin), Nil);
    var auth := Cons(Everything(AuthAdmin), Cons(Everything(V2Admin), Nil));
    Inside(AuthAdmin, Everything(AuthAdmin), Cons(Everything(V2Admin), Nil));
    Inside(V1Admin, Everything(V1Admin), auth);
    Inside(V1Admin, Lit(V1, Lit(Admin, End)), Cons(Everything(V1Admin), auth));
  }

  lemma CoursePathsAreInside()
    ensures AllInside(AdminV1CoursesGet().paths) && AllInside(AdminV2CoursesAny().paths)
  {
    NothingInside();
    hide AllInside, Covers;
    CoversBelow(V1, Admin, Lit(Courses, End));
    CoversBelow(V2, Admin, Lit(Courses, End));
    CoversBelow(V2, Admin, Lit(Courses, Deep));
    Inside(V1Admin, Lit(V1, Lit(Admin, Lit(Courses, End))), Nil);
    Inside(V2Admin, Lit(V2, Lit(Admin, Lit(Courses, Deep))), Nil);
    Inside(V2Admin, Lit(V2, Lit(Admin, Lit(Courses, End))), Cons(Lit(V2, Lit(Admin, Lit(Courses, Deep))), Nil));
  }

  lemma OtherPathsAreInside()
    ensures AllInside(AdminPostCoursesAny().paths) && AllInside(AdminOnlineJudgeAny().paths)
  {
    NothingInside();
    hide AllInside;
    CoversItself(Everything(PostCourses));
    CoversItself(Everything(OnlineJudgeAdmin));
    Inside(PostCourses, Everything(PostCourses), Nil);
    Inside(PostCourses, Lit(V2, Lit(Post, Lit(Admin, Lit(Courses, End)))), Cons(Everything(PostCourses), Nil));
    Inside(OnlineJudgeAdmin, Everything(OnlineJudgeAdmin), Nil);
  }

  /** The rules of the admin areas, and the one between them that lets organizers look up users. */
  lemma AdminDecision(m: Method, path: seq<Segment>)
    requires m != OPTIONS
    ensures Decide(AdminRules(), m, path) ==
            if InAreas(path) then Some(ADMIN_ONLY)
            else if m == GET && Three(path, V2, Users, Lookup) then Some(ORGANIZER_ADMIN)
            else None
  {
    ServicePathsAreInside();
    CoursePathsAreInside();
    OtherPathsAreInside();
    LookupMeaning(m, path);
    if a :| Matches(Everything(a), path) {
      AdminRulesDemand(a);
      AppendNil(AdminRules());
      DemandsDecide(AdminRules(), Nil, AnyButOptions, Everything(a), ADMIN_ONLY, m, path);
    } else {
      hide Matches, Decide, AllInside;
      var last := Cons(AdminV2CoursesAny(), Cons(AdminOnlineJudgeAny(), Nil));
      First(AdminV1CoursesGet(), AdminRules().tail, m, path);
      First(OrganizerV2UserLookupGet(), Cons(AdminServiceAny(), Cons(AdminPostCoursesAny(), last)), m, path);
      First(AdminServiceAny(), Cons(AdminPostCoursesAny(), last), m, path);
      First(AdminPostCoursesAny(), last, m, path);
      First(AdminV2CoursesAny(), Cons(AdminOnlineJudgeAny(), Nil), m, path);
      First(AdminOnlineJudgeAny(), Nil, m, path);
      NoRules(m, path);
      forall r | r in {AdminV1CoursesGet(), AdminServiceAny(), AdminPostCoursesAny(), AdminV2CoursesAny(),
                       AdminOnlineJudgeAny()}
        ensures !Applies(r, m, path)
      {
        if Applies(r, m, path) { InsideMatches(r.paths, path); }
      }
    }
  }

  lemma {:induction false} AppendNil<T>(a: List<T>)
    ensures Append(a, Nil) == a
  {
    match a
    case Nil =>
    case Cons(_, rest) => AppendNil(rest);
  }

  lemma LookupMeaning(m: Method, path: seq<Segment>)
    ensures Applies(OrganizerV2UserLookupGet(), m, path) <==> m == GET && Three(path, V2, Users, Lookup)
  {
    OnePattern(Lit(V2, Lit(Users, Lit(Lookup, End))), path);
    HeadMeaning(V2, Users, path);
    hide Matches, AnyMatches;
  }

  lemma ReaderPathsLeave()
    ensures AllHeaded(UserNativeCourseGet().paths, false) && AllHeaded(UserSubmissionProblemAny().paths, false)
  {
  }

  lemma ReportPathsLeave()
    ensures AllHeaded(UserReportAny().paths, false)
  {
  }

  lemma ReaderChanges(m: Method, path: seq<Segment>)
    requires m != GET && m != OPTIONS
    ensures AllRequire(ReaderRules(), m, USER_ORGANIZER_ADMIN) && AllLeave(ReaderRules(), m)
  {
    ReaderPathsLeave();
    ReportPathsLeave();
    hide AllHeaded;
    var last := ReaderRules().tail.tail.tail.tail.tail.tail;
    assert AllRequire(last.tail, m, USER_ORGANIZER_ADMIN) && AllRequire(last, m, USER_ORGANIZER_ADMIN);
    assert AllRequire(ReaderRules().tail.tail.tail.tail, m, USER_ORGANIZER_ADMIN);
    assert AllRequire(ReaderRules().tail.tail, m, USER_ORGANIZER_ADMIN);
    assert AllLeave(last.tail, m) && AllLeave(last, m);
    assert AllLeave(ReaderRules().tail.tail.tail.tail, m);
    assert AllLeave(ReaderRules().tail.tail, m);
  }

  lemma WriterChanges(m: Method, path: seq<Segment>)
    requires m != GET && m != OPTIONS
    ensures Decide(WriterRules(), m, path) == Some(if WritesContent(m, path) then ORGANIZER_ADMIN else Authenticated)
  {
    hide Matches, Decide;
    var fallback := Cons(FallbackAuthenticated(), Nil);
    var image := Cons(OrganizerImageUploadPost(), fallback);
    var collaborator := Cons(OrganizerCollaboratorAddPost(), image);
    var delete := Cons(OrganizerContentDelete(), collaborator);
    var update := Cons(OrganizerContentUpdatePatch(), delete);
    var create := Cons(OrganizerContentCreatePost(), update);
    assert WriterRules() == Cons(PublicNativeBlogsGet(), Cons(PublicLegacyPostsGet(), create));
    First(PublicNativeBlogsGet(), Cons(PublicLegacyPostsGet(), create), m, path);
    First(PublicLegacyPostsGet(), create, m, path);
    First(OrganizerContentCreatePost(), update, m, path);
    First(OrganizerContentUpdatePatch(), delete, m, path);
    First(OrganizerContentDelete(), collaborator, m, path);
    First(OrganizerCollaboratorAddPost(), image, m, path);
    First(OrganizerImageUploadPost(), fallback, m, path);
    First(FallbackAuthenticated(), Nil, m, path);
    assert ContentParts() == Append(OrganizerCollaboratorAddPost().paths, OrganizerImageUploadPost().paths);
    AnyJoins(OrganizerCollaboratorAddPost().paths, OrganizerImageUploadPost().paths, path);
    hide AnyMatches;
  }

  lemma WritesAreContent()
    ensures AllHeaded(ContentLists(), true) && AllHeaded(ContentItems(), true) && AllHeaded(ContentParts(), true)
    ensures AllHeaded(Sessions(), false)
  {
  }

  lemma WritingIsInContent(m: Method, path: seq<Segment>)
    requires WritesContent(m, path)
    ensures InContent(path) && !AnyMatches(Sessions(), path)
  {
    WritesAreContent();
    hide AllHeaded, ContentLists, ContentItems, ContentParts, Sessions, AnyMatches, InContent;
    if AnyMatches(ContentLists(), path) { HeadsMatch(ContentLists(), true, path); }
    if AnyMatches(ContentParts(), path) { HeadsMatch(ContentParts(), true, path); }
    if AnyMatches(ContentItems(), path) { HeadsMatch(ContentItems(), true, path); }
    if AnyMatches(Sessions(), path) { HeadsMatch(Sessions(), false, path); }
  }

  lemma DocumentsAreRead(m: Method, path: seq<Segment>)
    requires m != GET
    ensures !Applies(PublicServiceOpenapiGet(), m, path)
  {
    hide AnyMatches;
  }

  /** The decision on a change. */
  lemma ChangeDecision(m: Method, path: seq<Segment>)
    requires m != GET && m != OPTIONS
    ensures var d := Decide(GlobalRules(), m, path);
            if InAreas(path) then d == Some(ADMIN_ONLY)
            else if WritesContent(m, path) then d == Some(ORGANIZER_ADMIN)
            else if m == POST && AnyMatches(Sessions(), path) then d == Some(PermitAll)
            else d == Some(USER_ORGANIZER_ADMIN) || d == Some(Authenticated)
  {
    hide *;
    ByGroups(m, path);
    DocumentsAreRead(m, path);
    PublicChanges(m, path);
    AccountChanges(m);
    AccountLeaves(m);
    RequiredByAll(AccountRules(), m, USER_ORGANIZER_ADMIN, path);
    AdminDecision(m, path);
    ReaderChanges(m, path);
    RequiredByAll(ReaderRules(), m, USER_ORGANIZER_ADMIN, path);
    WriterChanges(m, path);
    if InAreas(path) {
      AdminAreaChange(m, path);
    } else if WritesContent(m, path) {
      WritingIsInContent(m, path);
      LeftByAll(AccountRules(), m, path);
      LeftByAll(ReaderRules(), m, path);
    }
  }

  /** Exactly who may change what, apart from preflight requests: without a token only sessions and
      activation, and the cache message; with any token everything but what is below the admin areas and
      the content; organizers that as well; below the admin areas only admins. */
  lemma WhoMayChange(m: Method, path: seq<Segment>)
    requires m != GET && m != OPTIONS
    ensures Permits(GlobalRules(), m, path, Anonymous) <==> m == POST && AnyMatches(Sessions(), path)
    ensures Permits(GlobalRules(), m, path, Bearer(Some(USER))) <==> !InAreas(path) && !WritesContent(m, path)
    ensures Permits(GlobalRules(), m, path, Bearer(Some(ORGANIZER))) <==> !InAreas(path)
    ensures Permits(GlobalRules(), m, path, Bearer(Some(ADMIN)))
  {
    hide *;
    ChangeDecision(m, path);
    PermittedBy(m, path);
    if AnyMatches(Sessions(), path) && m == POST { SessionsAreOpen(path); }
  }

  /** What each requirement means for the callers. */
  lemma PermittedBy(m: Method, path: seq<Segment>)
    ensures var d := Decide(GlobalRules(), m, path);
            && (d == Some(PermitAll) ==> forall c :: Permits(GlobalRules(), m, path, c))
            && (d == Some(Authenticated) || d == Some(USER_ORGANIZER_ADMIN) ==>
                  && !Permits(GlobalRules(), m, path, Anonymous)
                  && forall r :: Permits(GlobalRules(), m, path, Bearer(Some(r))))
            && (d == Some(ORGANIZER_ADMIN) ==>
                  && !Permits(GlobalRules(), m, path, Anonymous)
                  && forall r :: Permits(GlobalRules(), m, path, Bearer(Some(r))) <==> r != USER)
            && (d == Some(ADMIN_ONLY) ==>
                  && !Permits(GlobalRules(), m, path, Anonymous)
                  && forall r :: Permits(GlobalRules(), m, path, Bearer(Some(r))) <==> r == ADMIN)
  {
    RoleGrants();
    hide GlobalRules, Grants, Decide;
  }

  lemma SessionsAreOpen(path: seq<Segment>)
    requires AnyMatches(Sessions(), path)
    ensures !InAreas(path) && !WritesContent(POST, path)
  {
    hide Sessions, AnyMatches, GlobalRules, PublicRules, AccountRules, AdminRules, ReaderRules, WriterRules, Decide,
      Applies, PublicServiceOpenapiGet, InAreas, WritesContent;
    ByGroups(POST, path);
    PublicChanges(POST, path);
    if InAreas(path) { AdminAreaChange(POST, path); }
    if WritesContent(POST, path) { WritingIsInContent(POST, path); }
  }

  lemma AdminAreaChange(m: Method, path: seq<Segment>)
    requires m != GET && m != OPTIONS && InAreas(path)
    ensures Decide(GlobalRules(), m, path) == Some(ADMIN_ONLY)
  {
    var a :| Matches(Everything(a), path);
    hide *;
    AdminAreaDecision(a, m, path);
  }

  lemma RoleGrants()
    ensures forall c :: Grants(PermitAll, c) && (Grants(Authenticated, c) <==> c.Bearer?)
    ensures !Grants(USER_ORGANIZER_ADMIN, Anonymous) && !Grants(ORGANIZER_ADMIN, Anonymous)
              && !Grants(ADMIN_ONLY, Anonymous)
    ensures forall r :: Grants(USER_ORGANIZER_ADMIN, Bearer(Some(r)))
    ensures forall r :: Grants(ORGANIZER_ADMIN, Bearer(Some(r))) <==> r != USER
    ensures forall r :: Grants(ADMIN_ONLY, Bearer(Some(r))) <==> r == ADMIN
  {
    AnyRoleMeaning({USER, ORGANIZER, ADMIN}, Anonymous);
    AnyRoleMeaning({ORGANIZER, ADMIN}, Anonymous);
    AnyRoleMeaning({ADMIN}, Anonymous);
    forall r ensures Grants(USER_ORGANIZER_ADMIN, Bearer(Some(r)))
      ensures Grants(ORGANIZER_ADMIN, Bearer(Some(r))) <==> r != USER
      ensures Grants(ADMIN_ONLY, Bearer(Some(r))) <==> r == ADMIN
    {
      AnyRoleMeaning({USER, ORGANIZER, ADMIN}, Bearer(Some(r)));
      AnyRoleMeaning({ORGANIZER, ADMIN}, Bearer(Some(r)));
      AnyRoleMeaning({ADMIN}, Bearer(Some(r)));
      hide Grants;
    }
  }

  // ----- What may be read -----

  /** Liveness, the front page, the documents and their viewer, and health. */
  function OpenReads(): List<Pattern> {
    Append(PublicReads(), Append(ServiceDocuments(), OtherDocuments()))
  }

  function PublicReads(): List<Pattern> {
    Cons(Lit(Api, Lit(Ping, Deep)),
    Cons(Lit(V2, Lit(Ping, Deep)),
    Cons(Lit(Empty, End),
    Cons(Lit(IndexHtml, End),
    Cons(Lit(V3, Lit(ApiDocs, End)),
    Cons(Lit(V3, Lit(ApiDocs, Deep)),
    Nil))))))
  }

  function ServiceDocuments(): List<Pattern> {
    Cons(Lit(V2, Star(Lit(V3, Lit(ApiDocs, End)))),
    Cons(Lit(V2, Star(Lit(V3, Lit(ApiDocs, Deep)))),
    Nil))
  }

  function OtherDocuments(): List<Pattern> {
    Cons(Lit(SwaggerUiHtml, End),
    Cons(Lit(SwaggerUi, Deep),
    Cons(Lit(V2, Lit(Docs, End)),
    Cons(Lit(V2, Lit(Docs, Deep)),
    Cons(Lit(V2, Lit(SwaggerUi, Lit(IndexHtml, End))),
    Cons(Lit(V2, Lit(SwaggerUi, Deep)),
    Cons(Lit(Actuator, Lit(Health, End)),
    Cons(Lit(Actuator, Lit(Health, Deep)),
    Nil))))))))
  }

  /** Published blogs, and posts of the first service. */
  predicate PublishedReads(path: seq<Segment>) {
    && 2 <= |path| <= 3 && (|path| == 3 ==> path[2] != Empty)
    && ((path[0] == V1 && path[1] == Posts) || (path[0] == V2 && path[1] in {Post, Blogs}))
    && !Three(path, V2, Post, Courses)
  }

  /** Drafts, one's own and scheduled content, and the lookup of users. */
  predicate OrganizerReads(path: seq<Segment>) {
    || Three(path, V2, Users, Lookup)
    || (|path| >= 3 && path[2] == Drafts
        && ((path[0] == V1 && path[1] == Posts) || (path[0] == V2 && path[1] in {Post, Posts, Blogs, Lectures})))
    || (|path| == 3 && path[0] == V2 && path[1] in {Posts, Blogs, Lectures} && path[2] == Me)
    || (|path| == 4 && path[0] == V2 && path[1] in {Posts, Blogs, Lectures} && path[2] == Scheduled && path[3] == Me)
  }

  lemma Ends(path: seq<Segment>)
    ensures Matches(End, path) <==> path == []
    ensures Matches(Star(End), path) <==> |path| == 1 && path[0] != Empty
    ensures Matches(Deep, path)
    ensures forall c :: Matches(Lit(c, End), path) <==> path == [c]
    ensures forall c :: Matches(Lit(c, Deep), path) <==> path != [] && path[0] == c
  {
    if path != [] {
      assert Matches(End, path[1..]) <==> path[1..] == [];
      assert path == [path[0]] + path[1..];
    }
  }

  /** A pattern of two literals and what may follow. */
  lemma HeadMeaning(a: Segment, b: Segment, path: seq<Segment>)
    ensures Matches(Lit(a, Lit(b, End)), path) <==> |path| == 2 && path[0] == a && path[1] == b
    ensures Matches(Lit(a, Lit(b, Star(End))), path) <==>
            |path| == 3 && path[0] == a && path[1] == b && path[2] != Empty
    ensures forall c :: Matches(Lit(a, Lit(b, Lit(c, End))), path) <==>
                        |path| == 3 && path[0] == a && path[1] == b && path[2] == c
    ensures forall c :: Matches(Lit(a, Lit(b, Lit(c, Deep))), path) <==>
                        |path| >= 3 && path[0] == a && path[1] == b && path[2] == c
  {
    Behind(a, b, End, path);
    Behind(a, b, Star(End), path);
    forall c ensures Matches(Lit(a, Lit(b, Lit(c, End))), path) <==>
                       |path| >= 2 && path[0] == a && path[1] == b && Matches(Lit(c, End), path[2..])
             ensures Matches(Lit(a, Lit(b, Lit(c, Deep))), path) <==>
                       |path| >= 2 && path[0] == a && path[1] == b && Matches(Lit(c, Deep), path[2..])
    {
      Behind(a, b, Lit(c, End), path);
      Behind(a, b, Lit(c, Deep), path);
    }
    hide Matches;
    if |path| >= 2 {
      Ends(path[2..]);
      assert path == [path[0], path[1]] + path[2..];
    }
  }

  lemma One(p: Pattern, rest: List<Pattern>, path: seq<Segment>)
    ensures AnyMatches(Cons(p, rest), path) <==> Matches(p, path) || AnyMatches(rest, path)
    ensures !AnyMatches(Nil, path)
  {
    hide Matches;
  }

  lemma PublishedRules(path: seq<Segment>)
    ensures Applies(PublicNativeBlogsGet(), GET, path) || Applies(PublicLegacyPostsGet(), GET, path) <==>
            PublishedReads(path) || Three(path, V2, Post, Courses)
  {
    HeadMeaning(V2, Blogs, path);
    HeadMeaning(V1, Posts, path);
    HeadMeaning(V2, Post, path);
    var blogs, legacy := PublicNativeBlogsGet().paths, PublicLegacyPostsGet().paths;
    One(blogs.head, blogs.tail, path);
    One(blogs.tail.head, Nil, path);
    One(legacy.head, legacy.tail, path);
    One(legacy.tail.head, legacy.tail.tail, path);
    One(legacy.tail.tail.head, legacy.tail.tail.tail, path);
    One(legacy.tail.tail.tail.head, Nil, path);
    hide Matches, AnyMatches;
  }

  lemma DraftRules(path: seq<Segment>)
    ensures Applies(OrganizerLegacyDraftsGet(), GET, path) || Applies(OrganizerNativeDraftsGet(), GET, path) <==>
            |path| >= 3 && path[2] == Drafts
            && ((path[0] == V1 && path[1] == Posts) || (path[0] == V2 && path[1] in {Post, Posts, Blogs, Lectures}))
  {
    HeadMeaning(V1, Posts, path);
    HeadMeaning(V2, Post, path);
    HeadMeaning(V2, Posts, path);
    HeadMeaning(V2, Blogs, path);
    HeadMeaning(V2, Lectures, path);
    var legacy, native := OrganizerLegacyDraftsGet().paths, OrganizerNativeDraftsGet().paths;
    One(legacy.head, legacy.tail, path);
    One(legacy.tail.head, legacy.tail.tail, path);
    One(legacy.tail.tail.head, legacy.tail.tail.tail, path);
    One(legacy.tail.tail.tail.head, Nil, path);
    One(native.head, native.tail, path);
    One(native.tail.head, native.tail.tail, path);
    One(native.tail.tail.head, native.tail.tail.tail, path);
    One(native.tail.tail.tail.head, native.tail.tail.tail.tail, path);
    One(native.tail.tail.tail.tail.head, native.tail.tail.tail.tail.tail, path);
    One(native.tail.tail.tail.tail.tail.head, Nil, path);
    hide Matches, AnyMatches;
  }

  lemma ScheduledMeaning(b: Segment, path: seq<Segment>)
    ensures Matches(Lit(V2, Lit(b, Lit(Scheduled, Lit(Me, End)))), path) <==>
            |path| == 4 && path[0] == V2 && path[1] == b && path[2] == Scheduled && path[3] == Me
  {
    Behind(V2, b, Lit(Scheduled, Lit(Me, End)), path);
    if |path| >= 2 {
      Behind(Scheduled, Me, End, path[2..]);
      hide Matches;
      if |path[2..]| >= 2 {
        Ends(path[2..][2..]);
        assert path == [path[0], path[1], path[2], path[3]] + path[2..][2..];
      }
    }
  }

  lemma OwnRules(path: seq<Segment>)
    ensures Applies(OrganizerNativeOwnContentGet(), GET, path) <==>
            || (|path| == 3 && path[0] == V2 && path[1] in {Posts, Blogs, Lectures} && path[2] == Me)
            || (|path| == 4 && path[0] == V2 && path[1] in {Posts, Blogs, Lectures} && path[2] == Scheduled
                && path[3] == Me)
  {
    var sixth := Cons(Lit(V2, Lit(Lectures, Lit(Scheduled, Lit(Me, End)))), Nil);
    var fifth := Cons(Lit(V2, Lit(Lectures, Lit(Me, End))), sixth);
    var fourth := Cons(Lit(V2, Lit(Blogs, Lit(Scheduled, Lit(Me, End)))), fifth);
    var third := Cons(Lit(V2, Lit(Blogs, Lit(Me, End))), fourth);
    var second := Cons(Lit(V2, Lit(Posts, Lit(Scheduled, Lit(Me, End)))), third);
    var first := Cons(Lit(V2, Lit(Posts, Lit(Me, End))), second);
    assert Applies(OrganizerNativeOwnContentGet(), GET, path) <==> AnyMatches(first, path) by {
      hide Matches;
      assert OrganizerNativeOwnContentGet().paths == first;
    }
    hide *;
    HeadMeaning(V2, Posts, path);
    HeadMeaning(V2, Blogs, path);
    HeadMeaning(V2, Lectures, path);
    ScheduledMeaning(Posts, path);
    ScheduledMeaning(Blogs, path);
    ScheduledMeaning(Lectures, path);
    One(first.head, second, path);
    One(second.head, third, path);
    One(third.head, fourth, path);
    One(fourth.head, fifth, path);
    One(fifth.head, sixth, path);
    One(sixth.head, Nil, path);
  }

  lemma CourseRule(path: seq<Segment>)
    requires InContent(path)
    ensures Applies(UserCoursePostServiceGet(), GET, path) <==>
            |path| >= 3 && path[0] == V2 && path[1] == Post && path[2] == Courses
  {
    HeadMeaning(V2, Post, path);
    HeadMeaning(V1, Courses, path);
    Behind(V1, Courses, Deep, path);
    var fourth := Cons(Lit(V2, Lit(Post, Lit(Courses, Deep))), Nil);
    var third := Cons(Lit(V2, Lit(Post, Lit(Courses, End))), fourth);
    var second := Cons(Lit(V1, Lit(Courses, Deep)), third);
    assert UserCoursePostServiceGet().paths == Cons(Lit(V1, Lit(Courses, End)), second);
    One(Lit(V1, Lit(Courses, End)), second, path);
    One(second.head, third, path);
    One(third.head, fourth, path);
    One(fourth.head, Nil, path);
    hide Matches, AnyMatches;
  }

  lemma NativeContentRule(path: seq<Segment>)
    requires Applies(UserNativeContentGet(), GET, path)
    ensures |path| >= 2 && path[0] == V2 && (path[1] == Posts || path[1] == Lectures)
  {
    HeadMeaning(V2, Posts, path);
    HeadMeaning(V2, Lectures, path);
    var fourth := Cons(Lit(V2, Lit(Lectures, Star(End))), Nil);
    var third := Cons(Lit(V2, Lit(Lectures, End)), fourth);
    var second := Cons(Lit(V2, Lit(Posts, Star(End))), third);
    assert UserNativeContentGet().paths == Cons(Lit(V2, Lit(Posts, End)), second);
    One(Lit(V2, Lit(Posts, End)), second, path);
    One(second.head, third, path);
    One(third.head, fourth, path);
    One(fourth.head, Nil, path);
    hide Matches, AnyMatches;
  }

  /** The rules for readers that ask for a user, before those that ask for an organizer. */
  function EarlyReaders(): List<AccessRule> {
    Cons(UserNativeCourseGet(), Cons(UserSubmissionProblemAny(), Cons(UserReportAny(), Nil)))
  }

  lemma EarlyReadersStay(path: seq<Segment>)
    ensures Decide(EarlyReaders(), GET, path) == None || Decide(EarlyReaders(), GET, path) == Some(USER_ORGANIZER_ADMIN)
    ensures InContent(path) ==> Decide(EarlyReaders(), GET, path) == None
  {
    ReaderPathsLeave();
    ReportPathsLeave();
    hide AllHeaded;
    assert AllRequire(EarlyReaders(), GET, USER_ORGANIZER_ADMIN) && AllLeave(EarlyReaders(), GET);
    hide EarlyReaders, InContent;
    RequiredByAll(EarlyReaders(), GET, USER_ORGANIZER_ADMIN, path);
    if InContent(path) { LeftByAll(EarlyReaders(), GET, path); }
  }

  lemma ReaderByRules(path: seq<Segment>)
    ensures Decide(ReaderRules(), GET, path) ==
            if Applies(UserCoursePostServiceGet(), GET, path) then Some(USER_ORGANIZER_ADMIN)
            else if Decide(EarlyReaders(), GET, path).Some? then Decide(EarlyReaders(), GET, path)
            else if Applies(OrganizerLegacyDraftsGet(), GET, path) || Applies(OrganizerNativeDraftsGet(), GET, path)
                    || Applies(OrganizerNativeOwnContentGet(), GET, path) then Some(ORGANIZER_ADMIN)
            else if Applies(UserNativeContentGet(), GET, path) then Some(USER_ORGANIZER_ADMIN)
            else None
  {
    hide Decide, Applies;
    var content := Cons(UserNativeContentGet(), Nil);
    var own := Cons(OrganizerNativeOwnContentGet(), content);
    var native := Cons(OrganizerNativeDraftsGet(), own);
    var legacy := Cons(OrganizerLegacyDraftsGet(), native);
    assert ReaderRules() == Cons(UserCoursePostServiceGet(), Append(EarlyReaders(), legacy));
    First(UserCoursePostServiceGet(), Append(EarlyReaders(), legacy), GET, path);
    DecideJoins(EarlyReaders(), legacy, GET, path);
    First(OrganizerLegacyDraftsGet(), native, GET, path);
    First(OrganizerNativeDraftsGet(), own, GET, path);
    First(OrganizerNativeOwnContentGet(), content, GET, path);
    First(UserNativeContentGet(), Nil, GET, path);
    NoRules(GET, path);
  }

  lemma ReaderReads(path: seq<Segment>)
    ensures var d := Decide(ReaderRules(), GET, path);
            && (OrganizerReads(path) && !Three(path, V2, Users, Lookup) ==> d == Some(ORGANIZER_ADMIN))
            && (!OrganizerReads(path) ==> d == None || d == Some(USER_ORGANIZER_ADMIN))
            && (PublishedReads(path) && !OrganizerReads(path) ==> d == None)
            && (Three(path, V2, Post, Courses) ==> d == Some(USER_ORGANIZER_ADMIN))
  {
    hide Decide, Applies, ReaderRules, EarlyReaders, Matches, AnyMatches, UserCoursePostServiceGet,
      OrganizerLegacyDraftsGet, OrganizerNativeDraftsGet, OrganizerNativeOwnContentGet, UserNativeContentGet;
    ReaderByRules(path);
    EarlyReadersStay(path);
    DraftRules(path);
    OwnRules(path);
    if InContent(path) { CourseRule(path); }
    if Applies(UserNativeContentGet(), GET, path) { NativeContentRule(path); }
  }

  lemma WriterReads(path: seq<Segment>)
    ensures Decide(WriterRules(), GET, path) ==
            Some(if PublishedReads(path) || Three(path, V2, Post, Courses) then PermitAll else Authenticated)
  {
    PublishedRules(path);
    hide Matches, Decide, AnyMatches, PublishedReads;
    var fallback := Cons(FallbackAuthenticated(), Nil);
    var image := Cons(OrganizerImageUploadPost(), fallback);
    var collaborator := Cons(OrganizerCollaboratorAddPost(), image);
    var delete := Cons(OrganizerContentDelete(), collaborator);
    var update := Cons(OrganizerContentUpdatePatch(), delete);
    var create := Cons(OrganizerContentCreatePost(), update);
    assert WriterRules() == Cons(PublicNativeBlogsGet(), Cons(PublicLegacyPostsGet(), create));
    First(PublicNativeBlogsGet(), Cons(PublicLegacyPostsGet(), create), GET, path);
    First(PublicLegacyPostsGet(), create, GET, path);
    First(OrganizerContentCreatePost(), update, GET, path);
    First(OrganizerContentUpdatePatch(), delete, GET, path);
    First(OrganizerContentDelete(), collaborator, GET, path);
    First(OrganizerCollaboratorAddPost(), image, GET, path);
    First(OrganizerImageUploadPost(), fallback, GET, path);
    First(FallbackAuthenticated(), Nil, GET, path);
  }

  lemma PublicReadRules(path: seq<Segment>)
    ensures Decide(PublicRules(), GET, path) == if AnyMatches(PublicReads(), path) then Some(PermitAll) else None
  {
    hide Matches, Decide;
    var last := Cons(PublicIndexGet(), Cons(PublicRootOpenapiGet(), Nil));
    var fifth := Cons(PublicPingGet(), last);
    var fourth := Cons(PublicCacheInvalidationPost(), fifth);
    var third := Cons(PublicV2AuthSessionPost(), fourth);
    var second := Cons(PublicV1AuthPost(), third);
    assert PublicRules() == Cons(PreflightOptions(), second);
    First(PreflightOptions(), second, GET, path);
    First(PublicV1AuthPost(), third, GET, path);
    First(PublicV2AuthSessionPost(), fourth, GET, path);
    First(PublicCacheInvalidationPost(), fifth, GET, path);
    First(PublicPingGet(), last, GET, path);
    First(PublicIndexGet(), Cons(PublicRootOpenapiGet(), Nil), GET, path);
    First(PublicRootOpenapiGet(), Nil, GET, path);
    NoRules(GET, path);
    var index, documents := PublicIndexGet().paths, PublicRootOpenapiGet().paths;
    assert PublicReads() == Append(PublicPingGet().paths, Append(index, documents));
    AnyJoins(index, documents, path);
    AnyJoins(PublicPingGet().paths, Append(index, documents), path);
    hide AnyMatches;
  }

  lemma AccountReads(path: seq<Segment>)
    ensures var d := Decide(AccountRules(), GET, path);
            if AnyMatches(OtherDocuments(), path) then d == Some(PermitAll)
            else d == None || d == Some(USER_ORGANIZER_ADMIN)
  {
    hide Matches, Decide;
    var own := AccountRules().tail.tail;
    assert AccountRules() == Cons(PublicSwaggerGet(), Cons(PublicHealthGet(), own));
    First(PublicSwaggerGet(), Cons(PublicHealthGet(), own), GET, path);
    First(PublicHealthGet(), own, GET, path);
    OwnRequireUser(path);
    assert OtherDocuments() == Append(PublicSwaggerGet().paths, PublicHealthGet().paths);
    AnyJoins(PublicSwaggerGet().paths, PublicHealthGet().paths, path);
    hide AnyMatches;
  }

  lemma OwnRequireUser(path: seq<Segment>)
    ensures var own := AccountRules().tail.tail;
            Decide(own, GET, path) == None || Decide(own, GET, path) == Some(USER_ORGANIZER_ADMIN)
  {
    var own := AccountRules().tail.tail;
    assert AllRequire(own.tail.tail.tail, GET, USER_ORGANIZER_ADMIN);
    assert AllRequire(own, GET, USER_ORGANIZER_ADMIN);
    RequiredByAll(own, GET, USER_ORGANIZER_ADMIN, path);
  }

  lemma OpenReadMeaning(path: seq<Segment>)
    ensures AnyMatches(OpenReads(), path) <==>
            || AnyMatches(PublicReads(), path) || Applies(PublicServiceOpenapiGet(), GET, path)
            || AnyMatches(OtherDocuments(), path)
  {
    hide Matches;
    AnyJoins(ServiceDocuments(), OtherDocuments(), path);
    AnyJoins(PublicReads(), Append(ServiceDocuments(), OtherDocuments()), path);
    assert PublicServiceOpenapiGet().paths == ServiceDocuments();
    hide AnyMatches;
  }

  lemma ReadsAreContent(path: seq<Segment>)
    requires OrganizerReads(path) || PublishedReads(path)
    ensures InContent(path) && !InAreas(path)
  {
    if a :| Matches(Everything(a), path) {
      AreaHead(a, path);
    }
  }

  lemma AreaHead(a: Area, path: seq<Segment>)
    requires Matches(Everything(a), path)
    ensures |path| >= 2 && path[1] in {Admin, Auth, Post, OnlineJudge}
    ensures path[1] == Post ==> |path| >= 4 && path[2] == Admin && path[3] == Courses
    ensures path[1] == Post ==> path[0] == V2
  {
    match a
    case V1Admin => Behind(V1, Admin, Deep, path);
    case V2Admin => Behind(V2, Admin, Deep, path);
    case AuthAdmin => Behind(V2, Auth, Lit(Admin, Deep), path);
    case OnlineJudgeAdmin => Behind(V2, OnlineJudge, Lit(Admin, Deep), path);
    case PostCourses =>
      Behind(V2, Post, Lit(Admin, Lit(Courses, Deep)), path);
      Behind(Admin, Courses, Deep, path[2..]);
  }

  /** The decision on reading. */
  lemma ReadDecision(path: seq<Segment>)
    ensures var d := Decide(GlobalRules(), GET, path);
            if AnyMatches(OpenReads(), path) then d == Some(PermitAll)
            else if InAreas(path) then d == Some(ADMIN_ONLY)
            else if OrganizerReads(path) then d == Some(ORGANIZER_ADMIN)
            else if PublishedReads(path) then d == Some(PermitAll)
            else d == Some(USER_ORGANIZER_ADMIN) || d == Some(Authenticated)
  {
    hide *;
    ByGroups(GET, path);
    PublicReadRules(path);
    OpenReadMeaning(path);
    AccountReads(path);
    if !AnyMatches(OpenReads(), path) {
      if InAreas(path) { AdminAreaRead(path); } else { ReadByRole(path); }
    }
  }

  lemma AdminAreaRead(path: seq<Segment>)
    requires InAreas(path)
    ensures Applies(PublicServiceOpenapiGet(), GET, path) || Decide(GlobalRules(), GET, path) == Some(ADMIN_ONLY)
  {
    var a :| Matches(Everything(a), path);
    hide *;
    AdminAreaDecision(a, GET, path);
    DocumentRuleReach(a, GET, path);
  }

  lemma ReadByRole(path: seq<Segment>)
    ensures var account, admin := Decide(AccountRules(), GET, path), Decide(AdminRules(), GET, path);
            var reader, writer := Decide(ReaderRules(), GET, path), Decide(WriterRules(), GET, path);
            var d := if admin.Some? then admin else if reader.Some? then reader else writer;
            && (!InAreas(path) && OrganizerReads(path) ==> account == None && d == Some(ORGANIZER_ADMIN))
            && (!InAreas(path) && !OrganizerReads(path) && PublishedReads(path) ==>
                  account == None && d == Some(PermitAll))
            && (!InAreas(path) && !OrganizerReads(path) && !PublishedReads(path) ==>
                  d == Some(USER_ORGANIZER_ADMIN) || d == Some(Authenticated))
  {
    AdminDecision(GET, path);
    AccountLeaves(GET);
    ReaderReads(path);
    WriterReads(path);
    assert Three(path, V2, Users, Lookup) ==> OrganizerReads(path);
    hide *;
    if OrganizerReads(path) || PublishedReads(path) {
      ReadsAreContent(path);
      LeftByAll(AccountRules(), GET, path);
    }
  }

  /** Exactly who may read what: without a token what is open and what is published; with any token
      everything but what is below the admin areas, the drafts and own content of organizers and the lookup
      of users; organizers that as well; below the admin areas only admins, but for the open documents. */
  lemma WhoMayRead(path: seq<Segment>)
    ensures var open := AnyMatches(OpenReads(), path);
            && (Permits(GlobalRules(), GET, path, Anonymous) <==>
                open || (PublishedReads(path) && !OrganizerReads(path)))
            && (Permits(GlobalRules(), GET, path, Bearer(Some(USER))) <==>
                open || (!InAreas(path) && !OrganizerReads(path)))
            && (Permits(GlobalRules(), GET, path, Bearer(Some(ORGANIZER))) <==> open || !InAreas(path))
            && Permits(GlobalRules(), GET, path, Bearer(Some(ADMIN)))
  {
    hide *;
    ReadDecision(path);
    PermittedBy(GET, path);
    if PublishedReads(path) { ReadsAreContent(path); }
  }
}

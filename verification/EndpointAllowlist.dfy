/** The deny and allow lists of the gateway: the first of the two layers a request passes. */
module EndpointAllowlist {
  import opened PathPatterns

  datatype AllowRule = AllowRule(verb: Method, path: Pattern)

  datatype Decision = ALLOW | EXPLICIT_DENY | NO_MATCH

  predicate AnyRuleMatches(rules: List<AllowRule>, m: Method, path: seq<Segment>) {
    match rules
    case Nil => false
    case Cons(r, rest) => (r.verb == m && Matches(r.path, path)) || AnyRuleMatches(rest, m, path)
  }

  function EvaluateRules(allow: List<AllowRule>, deny: List<AllowRule>, m: Method, path: seq<Segment>): Decision {
    if AnyRuleMatches(deny, m, path) then EXPLICIT_DENY
    else if AnyRuleMatches(allow, m, path) then ALLOW
    else NO_MATCH
  }

  function Evaluate(m: Method, path: seq<Segment>): Decision {
    EvaluateRules(AllowRules(), DenyRules(), m, path)
  }

  // ----- The lists, in the order of the source -----

  function AuthLegacyRules1(): (rules: List<AllowRule>)
    ensures NoneOverlaps(rules, GET, AdminDocuments())
  {
    Cons(AllowRule(POST, Lit(V1, Lit(Auth, Lit(Login, End)))),
    Cons(AllowRule(POST, Lit(V1, Lit(Auth, Lit(Refresh, End)))),
    Cons(AllowRule(POST, Lit(V1, Lit(Auth, Lit(Logout, End)))),
    Cons(AllowRule(POST, Lit(Activate, End)),
    Cons(AllowRule(POST, Lit(V1, Lit(Me, Lit(Password, End)))),
    Cons(AllowRule(GET, Lit(V1, Lit(Me, End))),
    Cons(AllowRule(POST, Lit(V1, Lit(Me, End))),
    Cons(AllowRule(PATCH, Lit(V1, Lit(Me, End))),
    Cons(AllowRule(GET, Lit(V1, Lit(Admin, Lit(Ping, End)))),
    Cons(AllowRule(GET, Lit(V1, Lit(Admin, Lit(Users, End)))),
    Nil))))))))))
  }

  function AuthLegacyRules2(): (rules: List<AllowRule>)
    ensures NoneOverlaps(rules, GET, AdminDocuments())
  {
    Cons(AllowRule(POST, Lit(V1, Lit(Admin, Lit(Users, End)))),
    Cons(AllowRule(POST, Lit(V1, Lit(Admin, Lit(Users, Lit(Sync, End))))),
    Cons(AllowRule(POST, Lit(V1, Lit(Admin, Lit(InviteMail, End)))),
    Cons(AllowRule(PATCH, Lit(V1, Lit(Admin, Lit(Users, Lit(Role, End))))),
    Cons(AllowRule(PATCH, Lit(V1, Lit(Admin, Lit(Users, Deep)))),
    Cons(AllowRule(POST, Lit(V1, Lit(Admin, Lit(Users, Star(Lit(ResetPassword, End)))))),
    Cons(AllowRule(DELETE, Lit(V1, Lit(Admin, Lit(Users, End)))),
    Cons(AllowRule(DELETE, Lit(V1, Lit(Admin, Lit(Users, Star(End))))),
    Cons(AllowRule(GET, Lit(V1, Lit(Users, End))),
    Cons(AllowRule(GET, Lit(V1, Lit(Users, Deep))),
    Nil))))))))))
  }

  function AuthLegacyRules3(): (rules: List<AllowRule>)
    ensures NoneOverlaps(rules, GET, AdminDocuments())
  {
    Cons(AllowRule(POST, Lit(V1, Lit(Users, End))),
    Cons(AllowRule(POST, Lit(V1, Lit(Users, Deep))),
    Cons(AllowRule(PUT, Lit(V1, Lit(Users, End))),
    Cons(AllowRule(PUT, Lit(V1, Lit(Users, Deep))),
    Cons(AllowRule(PATCH, Lit(V1, Lit(Users, End))),
    Cons(AllowRule(PATCH, Lit(V1, Lit(Users, Deep))),
    Cons(AllowRule(DELETE, Lit(V1, Lit(Users, End))),
    Cons(AllowRule(DELETE, Lit(V1, Lit(Users, Deep))),
    Nil))))))))
  }

  function ContentRules1(): (rules: List<AllowRule>)
    ensures NoneOverlaps(rules, GET, AdminDocuments())
  {
    Cons(AllowRule(GET, Lit(V1, Lit(Posts, End))),
    Cons(AllowRule(GET, Lit(V1, Lit(Posts, Lit(Drafts, End)))),
    Cons(AllowRule(GET, Lit(V1, Lit(Posts, Lit(Drafts, Deep)))),
    Cons(AllowRule(POST, Lit(V1, Lit(Posts, End))),
    Cons(AllowRule(GET, Lit(V1, Lit(Posts, Star(End)))),
    Cons(AllowRule(PATCH, Lit(V1, Lit(Posts, Star(End)))),
    Cons(AllowRule(DELETE, Lit(V1, Lit(Posts, Star(End)))),
    Cons(AllowRule(GET, Lit(V1, Lit(Admin, Lit(Courses, End)))),
    Cons(AllowRule(POST, Lit(V1, Lit(Admin, Lit(Courses, End)))),
    Cons(AllowRule(DELETE, Lit(V1, Lit(Admin, Lit(Courses, Star(End))))),
    Cons(AllowRule(PATCH, Lit(V1, Lit(Admin, Lit(Courses, Star(End))))),
    Nil)))))))))))
  }

  function ContentRules2(): (rules: List<AllowRule>)
    ensures NoneOverlaps(rules, GET, AdminDocuments())
  {
    Cons(AllowRule(POST, Lit(V1, Lit(Admin, Lit(Courses, Star(Lit(Weeks, End)))))),
    Cons(AllowRule(GET, Lit(V1, Lit(Admin, Lit(Courses, Star(Lit(Enrollments, End)))))),
    Cons(AllowRule(POST, Lit(V1, Lit(Admin, Lit(Courses, Star(Lit(Enrollments, End)))))),
    Cons(AllowRule(PATCH, Lit(V1, Lit(Admin, Lit(Courses, Star(Lit(Enrollments, Star(End))))))),
    Cons(AllowRule(DELETE, Lit(V1, Lit(Admin, Lit(Courses, Star(Lit(Enrollments, Star(End))))))),
    Cons(AllowRule(GET, Lit(V1, Lit(Admin, Lit(Courses, Star(Lit(Assignments, End)))))),
    Cons(AllowRule(GET, Lit(V1, Lit(Admin, Lit(Courses, Star(Lit(Assignments, Star(End))))))),
    Cons(AllowRule(POST, Lit(V1, Lit(Admin, Lit(Courses, Star(Lit(Assignments, End)))))),
    Cons(AllowRule(PATCH, Lit(V1, Lit(Admin, Lit(Courses, Star(Lit(Assignments, Star(End))))))),
    Cons(AllowRule(DELETE, Lit(V1, Lit(Admin, Lit(Courses, Star(Lit(Assignments, Star(End))))))),
    Cons(AllowRule(GET, Lit(V1, Lit(Courses, End))),
    Nil)))))))))))
  }

  function ContentRules3(): (rules: List<AllowRule>)
    ensures NoneOverlaps(rules, GET, AdminDocuments())
  {
    Cons(AllowRule(GET, Lit(V1, Lit(Courses, Star(End)))),
    Cons(AllowRule(GET, Lit(V1, Lit(Courses, Star(Lit(Outline, End))))),
    Cons(AllowRule(GET, Lit(V1, Lit(Courses, Star(Lit(Weeks, End))))),
    Cons(AllowRule(GET, Lit(V1, Lit(Courses, Star(Lit(Weeks, Star(Lit(Assignments, End))))))),
    Cons(AllowRule(GET, Lit(V1, Lit(Courses, Star(Lit(Assignments, End))))),
    Cons(AllowRule(GET, Lit(V1, Lit(Courses, Star(Lit(Assignments, Star(End)))))),
    Cons(AllowRule(POST, Lit(V1, Lit(Courses, Star(Lit(Assignments, Star(Lit(Submissions, End))))))),
    Cons(AllowRule(GET, Lit(V1, Lit(Courses, Star(Lit(Assignments, Star(Lit(Submissions, Star(End)))))))),
    Cons(AllowRule(GET, Lit(V1, Lit(Courses, Star(Lit(Assignments, Star(Lit(Submissions, Star(Lit(Stream, End))))))))),
    Cons(AllowRule(GET, Lit(V1, Lit(Courses, Lit(Assignments, Star(Lit(Course, End)))))),
    Nil))))))))))
  }

  function OnlineJudgeLegacyRules(): (rules: List<AllowRule>)
    ensures NoneOverlaps(rules, GET, AdminDocuments())
  {
    Cons(AllowRule(GET, Lit(V1, Lit(Problems, Star(Lit(Submissions, Lit(Me, End)))))),
    Cons(AllowRule(GET, Lit(V1, Lit(Admin, Lit(Submissions, End)))),
    Cons(AllowRule(GET, Lit(V1, Lit(Admin, Lit(Testcases, End)))),
    Cons(AllowRule(POST, Lit(V1, Lit(Submissions, End))),
    Cons(AllowRule(GET, Lit(V1, Lit(Submissions, Star(End)))),
    Cons(AllowRule(GET, Lit(V1, Lit(Submissions, Star(Lit(Stream, End))))),
    Nil))))))
  }

  function PingRules(): (rules: List<AllowRule>)
    ensures NoneOverlaps(rules, GET, AdminDocuments())
  {
    Cons(AllowRule(POST, Lit(V1, Lit(Posts, Lit(Images, End)))),
    Cons(AllowRule(GET, Lit(Api, Lit(Ping, Deep))),
    Cons(AllowRule(GET, Lit(V2, Lit(Ping, End))),
    Cons(AllowRule(GET, Lit(V2, Lit(Ping, Deep))),
    Nil))))
  }

  function DocumentsRules(): (rules: List<AllowRule>)
    ensures NoneOverlaps(rules, GET, AdminDocuments())
  {
    Cons(AllowRule(GET, Lit(Empty, End)),
    Cons(AllowRule(GET, Lit(IndexHtml, End)),
    Cons(AllowRule(GET, Lit(V3, Lit(ApiDocs, End))),
    Cons(AllowRule(GET, Lit(V3, Lit(ApiDocs, Deep))),
    Cons(AllowRule(GET, Lit(SwaggerUiHtml, End)),
    Cons(AllowRule(GET, Lit(SwaggerUi, Deep)),
    Cons(AllowRule(GET, Lit(V2, Lit(Docs, End))),
    Cons(AllowRule(GET, Lit(V2, Lit(Docs, Deep))),
    Cons(AllowRule(GET, Lit(V2, Lit(SwaggerUi, Lit(IndexHtml, End)))),
    Cons(AllowRule(GET, Lit(V2, Lit(SwaggerUi, Deep))),
    Cons(AllowRule(GET, Lit(V2, Lit(Post, Lit(V3, Lit(ApiDocs, End))))),
    Cons(AllowRule(GET, Lit(V2, Lit(Post, Lit(V3, Lit(ApiDocs, Deep))))),
    Nil))))))))))))
  }

  function OpenApiRules(): (rules: List<AllowRule>)
    ensures NoneOverlaps(rules, GET, AdminDocuments())
  {
    Cons(AllowRule(GET, Lit(V2, Lit(Report, Lit(V3, Lit(ApiDocs, End))))),
    Cons(AllowRule(GET, Lit(V2, Lit(Report, Lit(V3, Lit(ApiDocs, Deep))))),
    Cons(AllowRule(GET, Lit(V2, Lit(Auth, Lit(V3, Lit(ApiDocs, End))))),
    Cons(AllowRule(GET, Lit(V2, Lit(Auth, Lit(V3, Lit(ApiDocs, Deep))))),
    Cons(AllowRule(GET, Lit(V2, Lit(OnlineJudge, Lit(V3, Lit(ApiDocs, End))))),
    Cons(AllowRule(GET, Lit(V2, Lit(OnlineJudge, Lit(V3, Lit(ApiDocs, Deep))))),
    Cons(AllowRule(GET, Lit(Actuator, Lit(Health, End))),
    Cons(AllowRule(GET, Lit(Actuator, Lit(Health, Deep))),
    Cons(AllowRule(POST, Lit(Internal, Lit(V1, Lit(Cache, Lit(Invalidation, End))))),
    Nil)))))))))
  }

  function AuthV2Rules1(): (rules: List<AllowRule>)
    ensures NoneOverlaps(rules, GET, AdminDocuments())
  {
    Cons(AllowRule(POST, Lit(V2, Lit(Auth, Lit(Login, End)))),
    Cons(AllowRule(POST, Lit(V2, Lit(Auth, Lit(Refresh, End)))),
    Cons(AllowRule(POST, Lit(V2, Lit(Auth, Lit(Logout, End)))),
    Cons(AllowRule(POST, Lit(V2, Lit(Activate, End))),
    Cons(AllowRule(GET, Lit(V2, Lit(Auth, Lit(Me, End)))),
    Cons(AllowRule(POST, Lit(V2, Lit(Auth, Lit(Me, End)))),
    Cons(AllowRule(PATCH, Lit(V2, Lit(Auth, Lit(Me, End)))),
    Cons(AllowRule(POST, Lit(V2, Lit(Auth, Lit(Me, Lit(Password, End))))),
    Cons(AllowRule(GET, Lit(V2, Lit(Auth, Lit(Admin, Lit(Ping, End))))),
    Cons(AllowRule(GET, Lit(V2, Lit(Auth, Lit(Admin, Lit(Users, End))))),
    Cons(AllowRule(POST, Lit(V2, Lit(Auth, Lit(Admin, Lit(Users, End))))),
    Nil)))))))))))
  }

  function AuthV2Rules2(): (rules: List<AllowRule>)
    ensures NoneOverlaps(rules, GET, AdminDocuments())
  {
    Cons(AllowRule(POST, Lit(V2, Lit(Auth, Lit(Admin, Lit(Users, Lit(Sync, End)))))),
    Cons(AllowRule(POST, Lit(V2, Lit(Auth, Lit(Admin, Lit(InviteMail, End))))),
    Cons(AllowRule(PATCH, Lit(V2, Lit(Auth, Lit(Admin, Lit(Users, Lit(Role, End)))))),
    Cons(AllowRule(PATCH, Lit(V2, Lit(Auth, Lit(Admin, Lit(Users, Deep))))),
    Cons(AllowRule(POST, Lit(V2, Lit(Auth, Lit(Admin, Lit(Users, Star(Lit(ResetPassword, End))))))),
    Cons(AllowRule(DELETE, Lit(V2, Lit(Auth, Lit(Admin, Lit(Users, End))))),
    Cons(AllowRule(DELETE, Lit(V2, Lit(Auth, Lit(Admin, Lit(Users, Star(End)))))),
    Cons(AllowRule(GET, Lit(V2, Lit(Auth, Lit(Users, End)))),
    Cons(AllowRule(GET, Lit(V2, Lit(Auth, Lit(Users, Deep)))),
    Cons(AllowRule(POST, Lit(V2, Lit(Auth, Lit(Users, End)))),
    Cons(AllowRule(POST, Lit(V2, Lit(Auth, Lit(Users, Deep)))),
    Nil)))))))))))
  }

  function AuthV2Rules3(): (rules: List<AllowRule>)
    ensures NoneOverlaps(rules, GET, AdminDocuments())
  {
    Cons(AllowRule(PUT, Lit(V2, Lit(Auth, Lit(Users, End)))),
    Cons(AllowRule(PUT, Lit(V2, Lit(Auth, Lit(Users, Deep)))),
    Cons(AllowRule(PATCH, Lit(V2, Lit(Auth, Lit(Users, End)))),
    Cons(AllowRule(PATCH, Lit(V2, Lit(Auth, Lit(Users, Deep)))),
    Cons(AllowRule(DELETE, Lit(V2, Lit(Auth, Lit(Users, End)))),
    Cons(AllowRule(DELETE, Lit(V2, Lit(Auth, Lit(Users, Deep)))),
    Cons(AllowRule(GET, Lit(V2, Lit(Me, End))),
    Cons(AllowRule(PATCH, Lit(V2, Lit(Me, End))),
    Cons(AllowRule(POST, Lit(V2, Lit(Me, Lit(ProfileImage, Lit(UploadUrl, End))))),
    Cons(AllowRule(PATCH, Lit(V2, Lit(Me, Lit(Password, End)))),
    Cons(AllowRule(GET, Lit(V2, Lit(Users, Lit(Lookup, End)))),
    Nil)))))))))))
  }

  function AuthV2Rules4(): (rules: List<AllowRule>)
    ensures NoneOverlaps(rules, GET, AdminDocuments())
  {
    Cons(AllowRule(GET, Lit(V2, Lit(Admin, Lit(Ping, End)))),
    Cons(AllowRule(GET, Lit(V2, Lit(Admin, Lit(Users, End)))),
    Cons(AllowRule(POST, Lit(V2, Lit(Admin, Lit(Users, End)))),
    Cons(AllowRule(POST, Lit(V2, Lit(Admin, Lit(InviteMail, End)))),
    Cons(AllowRule(POST, Lit(V2, Lit(Admin, Lit(Users, Star(Lit(Password, Lit(Reset, End))))))),
    Cons(AllowRule(PATCH, Lit(V2, Lit(Admin, Lit(Users, Star(Lit(Role, End)))))),
    Cons(AllowRule(PATCH, Lit(V2, Lit(Admin, Lit(Users, Star(End))))),
    Cons(AllowRule(DELETE, Lit(V2, Lit(Admin, Lit(Users, Star(End))))),
    Nil))))))))
  }

  function ContentV2Rules1(): (rules: List<AllowRule>)
    ensures NoneOverlaps(rules, GET, AdminDocuments())
  {
    Cons(AllowRule(GET, Lit(V2, Lit(Post, End))),
    Cons(AllowRule(GET, Lit(V2, Lit(Post, Lit(Drafts, End)))),
    Cons(AllowRule(GET, Lit(V2, Lit(Post, Lit(Drafts, Deep)))),
    Cons(AllowRule(POST, Lit(V2, Lit(Post, End))),
    Cons(AllowRule(GET, Lit(V2, Lit(Post, Star(End)))),
    Cons(AllowRule(PATCH, Lit(V2, Lit(Post, Star(End)))),
    Cons(AllowRule(DELETE, Lit(V2, Lit(Post, Star(End)))),
    Cons(AllowRule(GET, Lit(V2, Lit(Post, Lit(Admin, Lit(Courses, End))))),
    Cons(AllowRule(POST, Lit(V2, Lit(Post, Lit(Admin, Lit(Courses, End))))),
    Cons(AllowRule(DELETE, Lit(V2, Lit(Post, Lit(Admin, Lit(Courses, Star(End)))))),
    Cons(AllowRule(PATCH, Lit(V2, Lit(Post, Lit(Admin, Lit(Courses, Star(End)))))),
    Nil)))))))))))
  }

  function ContentV2Rules2(): (rules: List<AllowRule>)
    ensures NoneOverlaps(rules, GET, AdminDocuments())
  {
    Cons(AllowRule(POST, Lit(V2, Lit(Post, Lit(Admin, Lit(Courses, Star(Lit(Weeks, End))))))),
    Cons(AllowRule(GET, Lit(V2, Lit(Post, Lit(Admin, Lit(Courses, Star(Lit(Enrollments, End))))))),
    Cons(AllowRule(POST, Lit(V2, Lit(Post, Lit(Admin, Lit(Courses, Star(Lit(Enrollments, End))))))),
    Cons(AllowRule(PATCH, Lit(V2, Lit(Post, Lit(Admin, Lit(Courses, Star(Lit(Enrollments, Star(End)))))))),
    Cons(AllowRule(DELETE, Lit(V2, Lit(Post, Lit(Admin, Lit(Courses, Star(Lit(Enrollments, Star(End)))))))),
    Cons(AllowRule(GET, Lit(V2, Lit(Post, Lit(Admin, Lit(Courses, Star(Lit(Assignments, End))))))),
    Cons(AllowRule(GET, Lit(V2, Lit(Post, Lit(Admin, Lit(Courses, Star(Lit(Assignments, Star(End)))))))),
    Cons(AllowRule(POST, Lit(V2, Lit(Post, Lit(Admin, Lit(Courses, Star(Lit(Assignments, End))))))),
    Cons(AllowRule(PATCH, Lit(V2, Lit(Post, Lit(Admin, Lit(Courses, Star(Lit(Assignments, Star(End)))))))),
    Cons(AllowRule(DELETE, Lit(V2, Lit(Post, Lit(Admin, Lit(Courses, Star(Lit(Assignments, Star(End)))))))),
    Cons(AllowRule(GET, Lit(V2, Lit(Post, Lit(Courses, End)))),
    Nil)))))))))))
  }

  function ContentV2Rules3(): (rules: List<AllowRule>)
    ensures NoneOverlaps(rules, GET, AdminDocuments())
  {
    Cons(AllowRule(GET, Lit(V2, Lit(Post, Lit(Courses, Star(End))))),
    Cons(AllowRule(GET, Lit(V2, Lit(Post, Lit(Courses, Star(Lit(Outline, End)))))),
    Cons(AllowRule(GET, Lit(V2, Lit(Post, Lit(Courses, Star(Lit(Weeks, End)))))),
    Cons(AllowRule(GET, Lit(V2, Lit(Post, Lit(Courses, Star(Lit(Weeks, Star(Lit(Assignments, End)))))))),
    Cons(AllowRule(GET, Lit(V2, Lit(Post, Lit(Courses, Star(Lit(Assignments, End)))))),
    Cons(AllowRule(GET, Lit(V2, Lit(Post, Lit(Courses, Star(Lit(Assignments, Star(End))))))),
    Cons(AllowRule(POST, Lit(V2, Lit(Post, Lit(Courses, Star(Lit(Assignments, Star(Lit(Submissions, End)))))))),
    Cons(AllowRule(GET, Lit(V2, Lit(Post, Lit(Courses, Star(Lit(Assignments, Star(Lit(Submissions, Star(End))))))))),
    Cons(AllowRule(GET, Lit(V2, Lit(Post, Lit(Courses,
                                              Star(Lit(Assignments,
                                                       Star(Lit(Submissions, Star(Lit(Stream, End)))))))))),
    Cons(AllowRule(GET, Lit(V2, Lit(Post, Lit(Courses, Lit(Assignments, Star(Lit(Course, End))))))),
    Cons(AllowRule(GET, Lit(V2, Lit(Admin, Lit(Courses, End)))),
    Nil)))))))))))
  }

  function ContentV2Rules4(): (rules: List<AllowRule>)
    ensures NoneOverlaps(rules, GET, AdminDocuments())
  {
    Cons(AllowRule(POST, Lit(V2, Lit(Admin, Lit(Courses, End)))),
    Cons(AllowRule(DELETE, Lit(V2, Lit(Admin, Lit(Courses, Star(End))))),
    Cons(AllowRule(PATCH, Lit(V2, Lit(Admin, Lit(Courses, Star(End))))),
    Cons(AllowRule(GET, Lit(V2, Lit(Admin, Lit(Courses, Star(Lit(Enrollments, End)))))),
    Cons(AllowRule(POST, Lit(V2, Lit(Admin, Lit(Courses, Star(Lit(Enrollments, End)))))),
    Cons(AllowRule(PATCH, Lit(V2, Lit(Admin, Lit(Courses, Star(Lit(Enrollments, Star(End))))))),
    Cons(AllowRule(DELETE, Lit(V2, Lit(Admin, Lit(Courses, Star(Lit(Enrollments, Star(End))))))),
    Cons(AllowRule(GET, Lit(V2, Lit(Admin, Lit(Courses, Star(Lit(Assignments, End)))))),
    Cons(AllowRule(GET, Lit(V2, Lit(Admin, Lit(Courses, Star(Lit(Assignments, Star(End))))))),
    Cons(AllowRule(POST, Lit(V2, Lit(Admin, Lit(Courses, Star(Lit(Assignments, End)))))),
    Cons(AllowRule(POST, Lit(V2, Lit(Admin, Lit(Courses, Star(Lit(Assignments, Lit(Copy, End))))))),
    Nil)))))))))))
  }

  function ContentV2Rules5(): (rules: List<AllowRule>)
    ensures NoneOverlaps(rules, GET, AdminDocuments())
  {
    Cons(AllowRule(PATCH, Lit(V2, Lit(Admin, Lit(Courses, Star(Lit(Assignments, Star(End))))))),
    Cons(AllowRule(DELETE, Lit(V2, Lit(Admin, Lit(Courses, Star(Lit(Assignments, Star(End))))))),
    Cons(AllowRule(GET, Lit(V2, Lit(Admin, Lit(Courses, Star(Lit(Assignments, Star(Lit(SubmissionStatuses, End)))))))),
    Cons(AllowRule(GET, Lit(V2, Lit(Courses, End))),
    Cons(AllowRule(GET, Lit(V2, Lit(Courses, Star(End)))),
    Cons(AllowRule(GET, Lit(V2, Lit(Courses, Star(Lit(Outline, End))))),
    Cons(AllowRule(GET, Lit(V2, Lit(Courses, Star(Lit(Weeks, End))))),
    Cons(AllowRule(GET, Lit(V2, Lit(Courses, Star(Lit(Weeks, Star(Lit(Assignments, End))))))),
    Cons(AllowRule(GET, Lit(V2, Lit(Courses, Star(Lit(Assignments, End))))),
    Cons(AllowRule(GET, Lit(V2, Lit(Courses, Star(Lit(Assignments, Star(End)))))),
    Cons(AllowRule(GET, Lit(V2, Lit(Assignments, Star(Lit(Course, End))))),
    Nil)))))))))))
  }

  function ReportRules1(): (rules: List<AllowRule>)
    ensures NoneOverlaps(rules, GET, AdminDocuments())
  {
    Cons(AllowRule(GET, Lit(V1, Lit(Report, End))),
    Cons(AllowRule(GET, Lit(V1, Lit(Report, Deep))),
    Cons(AllowRule(POST, Lit(V1, Lit(Report, End))),
    Cons(AllowRule(POST, Lit(V1, Lit(Report, Deep))),
    Cons(AllowRule(PUT, Lit(V1, Lit(Report, Deep))),
    Cons(AllowRule(PATCH, Lit(V1, Lit(Report, Deep))),
    Cons(AllowRule(DELETE, Lit(V1, Lit(Report, Deep))),
    Nil)))))))
  }

  function ReportRules2(): (rules: List<AllowRule>)
    ensures NoneOverlaps(rules, GET, AdminDocuments())
  {
    Cons(AllowRule(GET, Lit(V2, Lit(Report, End))),
    Cons(AllowRule(GET, Lit(V2, Lit(Report, Deep))),
    Cons(AllowRule(POST, Lit(V2, Lit(Report, End))),
    Cons(AllowRule(POST, Lit(V2, Lit(Report, Deep))),
    Cons(AllowRule(PUT, Lit(V2, Lit(Report, Deep))),
    Cons(AllowRule(PATCH, Lit(V2, Lit(Report, Deep))),
    Cons(AllowRule(DELETE, Lit(V2, Lit(Report, Deep))),
    Nil)))))))
  }

  function NativeContentRules1(): (rules: List<AllowRule>)
    ensures NoneOverlaps(rules, GET, AdminDocuments())
  {
    Cons(AllowRule(GET, Lit(V2, Lit(Post, Lit(Images, End)))),
    Cons(AllowRule(GET, Lit(V2, Lit(Post, Lit(Images, Deep)))),
    Cons(AllowRule(POST, Lit(V2, Lit(Post, Lit(Images, End)))),
    Cons(AllowRule(POST, Lit(V2, Lit(Post, Lit(Images, Deep)))),
    Cons(AllowRule(PUT, Lit(V2, Lit(Post, Lit(Images, End)))),
    Cons(AllowRule(PUT, Lit(V2, Lit(Post, Lit(Images, Deep)))),
    Cons(AllowRule(PATCH, Lit(V2, Lit(Post, Lit(Images, End)))),
    Cons(AllowRule(PATCH, Lit(V2, Lit(Post, Lit(Images, Deep)))),
    Cons(AllowRule(DELETE, Lit(V2, Lit(Post, Lit(Images, End)))),
    Cons(AllowRule(DELETE, Lit(V2, Lit(Post, Lit(Images, Deep)))),
    Nil))))))))))
  }

  function NativeContentRules2(): (rules: List<AllowRule>)
    ensures NoneOverlaps(rules, GET, AdminDocuments())
  {
    Cons(AllowRule(GET, Lit(V2, Lit(Posts, End))),
    Cons(AllowRule(POST, Lit(V2, Lit(Posts, End))),
    Cons(AllowRule(GET, Lit(V2, Lit(Posts, Lit(Me, End)))),
    Cons(AllowRule(GET, Lit(V2, Lit(Posts, Lit(Scheduled, Lit(Me, End))))),
    Cons(AllowRule(GET, Lit(V2, Lit(Posts, Lit(Drafts, End)))),
    Cons(AllowRule(GET, Lit(V2, Lit(Posts, Lit(Drafts, Deep)))),
    Cons(AllowRule(GET, Lit(V2, Lit(Posts, Star(End)))),
    Cons(AllowRule(PATCH, Lit(V2, Lit(Posts, Star(End)))),
    Cons(AllowRule(DELETE, Lit(V2, Lit(Posts, Star(End)))),
    Cons(AllowRule(POST, Lit(V2, Lit(Posts, Star(Lit(Collaborators, End))))),
    Nil))))))))))
  }

  function NativeContentRules3(): (rules: List<AllowRule>)
    ensures NoneOverlaps(rules, GET, AdminDocuments())
  {
    Cons(AllowRule(POST, Lit(V2, Lit(Posts, Lit(Images, End)))),
    Cons(AllowRule(GET, Lit(V2, Lit(Blogs, End))),
    Cons(AllowRule(POST, Lit(V2, Lit(Blogs, End))),
    Cons(AllowRule(GET, Lit(V2, Lit(Blogs, Lit(Me, End)))),
    Cons(AllowRule(GET, Lit(V2, Lit(Blogs, Lit(Scheduled, Lit(Me, End))))),
    Cons(AllowRule(GET, Lit(V2, Lit(Blogs, Lit(Drafts, End)))),
    Cons(AllowRule(GET, Lit(V2, Lit(Blogs, Lit(Drafts, Deep)))),
    Cons(AllowRule(GET, Lit(V2, Lit(Blogs, Star(End)))),
    Cons(AllowRule(PATCH, Lit(V2, Lit(Blogs, Star(End)))),
    Cons(AllowRule(DELETE, Lit(V2, Lit(Blogs, Star(End)))),
    Nil))))))))))
  }

  function NativeContentRules4(): (rules: List<AllowRule>)
    ensures NoneOverlaps(rules, GET, AdminDocuments())
  {
    Cons(AllowRule(GET, Lit(V2, Lit(Lectures, End))),
    Cons(AllowRule(POST, Lit(V2, Lit(Lectures, End))),
    Cons(AllowRule(GET, Lit(V2, Lit(Lectures, Lit(Me, End)))),
    Cons(AllowRule(GET, Lit(V2, Lit(Lectures, Lit(Scheduled, Lit(Me, End))))),
    Cons(AllowRule(GET, Lit(V2, Lit(Lectures, Lit(Drafts, End)))),
    Cons(AllowRule(GET, Lit(V2, Lit(Lectures, Lit(Drafts, Deep)))),
    Cons(AllowRule(GET, Lit(V2, Lit(Lectures, Star(End)))),
    Cons(AllowRule(PATCH, Lit(V2, Lit(Lectures, Star(End)))),
    Cons(AllowRule(DELETE, Lit(V2, Lit(Lectures, Star(End)))),
    Nil)))))))))
  }

  function OnlineJudgeV2Rules1(): (rules: List<AllowRule>)
    ensures NoneOverlaps(rules, GET, AdminDocuments())
  {
    Cons(AllowRule(POST, Lit(V2, Lit(OnlineJudge, Lit(Submissions, End)))),
    Cons(AllowRule(GET, Lit(V2, Lit(OnlineJudge, Lit(Problems, Star(Lit(Submissions, Lit(Me, End))))))),
    Cons(AllowRule(GET, Lit(V2, Lit(OnlineJudge, Lit(Admin, Lit(Submissions, End))))),
    Cons(AllowRule(GET, Lit(V2, Lit(OnlineJudge, Lit(Admin, Lit(Testcases, End))))),
    Cons(AllowRule(GET, Lit(V2, Lit(OnlineJudge, Lit(Submissions, Star(End))))),
    Cons(AllowRule(GET, Lit(V2, Lit(OnlineJudge, Lit(Submissions, Star(Lit(Stream, End)))))),
    Cons(AllowRule(POST, Lit(V2, Lit(Submissions, End))),
    Nil)))))))
  }

  function OnlineJudgeV2Rules2(): (rules: List<AllowRule>)
    ensures NoneOverlaps(rules, GET, AdminDocuments())
  {
    Cons(AllowRule(GET, Lit(V2, Lit(Problems, Star(Lit(Submissions, Lit(Me, End)))))),
    Cons(AllowRule(GET, Lit(V2, Lit(Admin, Lit(Submissions, End)))),
    Cons(AllowRule(GET, Lit(V2, Lit(Admin, Lit(Testcases, End)))),
    Cons(AllowRule(GET, Lit(V2, Lit(Submissions, Star(End)))),
    Cons(AllowRule(GET, Lit(V2, Lit(Submissions, Star(Lit(Stream, End))))),
    Cons(AllowRule(GET, Lit(V2, Lit(Admin, Lit(ServiceAvailability, End)))),
    Cons(AllowRule(PUT, Lit(V2, Lit(Admin, Lit(ServiceAvailability, Star(End))))),
    Nil)))))))
  }

  function AllowRules(): List<AllowRule> {
    Append(AuthLegacyRules1(),
    Append(AuthLegacyRules2(),
    Append(AuthLegacyRules3(),
    Append(ContentRules1(),
    Append(ContentRules2(),
    Append(ContentRules3(),
    Append(OnlineJudgeLegacyRules(),
    Append(PingRules(),
    Append(DocumentsRules(),
    Append(OpenApiRules(),
    Append(AuthV2Rules1(),
    Append(AuthV2Rules2(),
    Append(AuthV2Rules3(),
    Append(AuthV2Rules4(),
    Append(ContentV2Rules1(),
    Append(ContentV2Rules2(),
    Append(ContentV2Rules3(),
    Append(ContentV2Rules4(),
    Append(ContentV2Rules5(),
    Append(ReportRules1(),
    Append(ReportRules2(),
    Append(NativeContentRules1(),
    Append(NativeContentRules2(),
    Append(NativeContentRules3(),
    Append(NativeContentRules4(),
    Append(OnlineJudgeV2Rules1(),
    OnlineJudgeV2Rules2()))))))))))))))))))))))))))
  }

  function DenyRules(): List<AllowRule> {
    Append(DeniedCourseRules(), DeniedReportRules())
  }

  function DeniedCourseRules(): List<AllowRule> {
    Cons(AllowRule(GET, Lit(V2, Lit(Admin, Lit(Courses, Star(Lit(Assignments, Lit(Copy, End))))))),
    Cons(AllowRule(PATCH, Lit(V2, Lit(Admin, Lit(Courses, Star(Lit(Assignments, Lit(Copy, End))))))),
    Cons(AllowRule(DELETE, Lit(V2, Lit(Admin, Lit(Courses, Star(Lit(Assignments, Lit(Copy, End))))))),
    Cons(AllowRule(PATCH, Lit(V2, Lit(Post, Lit(Courses, End)))),
    Cons(AllowRule(DELETE, Lit(V2, Lit(Post, Lit(Courses, End)))),
    Nil)))))
  }

  function DeniedReportRules(): List<AllowRule> {
    Cons(AllowRule(POST, Lit(V2, Lit(Report, Lit(V3, Lit(ApiDocs, End))))),
    Cons(AllowRule(POST, Lit(V2, Lit(Report, Lit(V3, Lit(ApiDocs, Deep))))),
    Cons(AllowRule(PUT, Lit(V2, Lit(Report, Lit(V3, Lit(ApiDocs, End))))),
    Cons(AllowRule(PUT, Lit(V2, Lit(Report, Lit(V3, Lit(ApiDocs, Deep))))),
    Cons(AllowRule(PATCH, Lit(V2, Lit(Report, Lit(V3, Lit(ApiDocs, End))))),
    Cons(AllowRule(PATCH, Lit(V2, Lit(Report, Lit(V3, Lit(ApiDocs, Deep))))),
    Cons(AllowRule(DELETE, Lit(V2, Lit(Report, Lit(V3, Lit(ApiDocs, End))))),
    Cons(AllowRule(DELETE, Lit(V2, Lit(Report, Lit(V3, Lit(ApiDocs, Deep))))),
    Nil))))))))
  }

  // ----- What no rule lets through -----

  predicate NoneOverlaps(rules: List<AllowRule>, m: Method, q: Pattern) {
    match rules
    case Nil => true
    case Cons(r, rest) => !(r.verb == m && Overlap(r.path, q)) && NoneOverlaps(rest, m, q)
  }

  lemma {:induction false} NoneOverlapsJoins(a: List<AllowRule>, b: List<AllowRule>, m: Method, q: Pattern)
    requires NoneOverlaps(a, m, q) && NoneOverlaps(b, m, q)
    ensures NoneOverlaps(Append(a, b), m, q)
  {
    match a
    case Nil =>
    case Cons(_, rest) => NoneOverlapsJoins(rest, b, m, q);
  }

  lemma {:induction false} NoneOverlapsNoneMatches(rules: List<AllowRule>, m: Method, q: Pattern, path: seq<Segment>)
    requires NoneOverlaps(rules, m, q) && Matches(q, path)
    ensures !AnyRuleMatches(rules, m, path)
  {
    match rules
    case Nil =>
    case Cons(r, rest) =>
      NoneOverlapsNoneMatches(rest, m, q, path);
      if r.verb == m && Matches(r.path, path) { OverlapIsNeeded(r.path, q, path); }
  }

  /** The documents of a service called "admin". */
  function AdminDocuments(): Pattern {
    Lit(V2, Lit(Admin, Lit(V3, Lit(ApiDocs, Deep))))
  }

  lemma NoAllowRuleReadsAdminDocuments()
    ensures NoneOverlaps(AllowRules(), GET, AdminDocuments())
  {
    forall a, b | NoneOverlaps(a, GET, AdminDocuments()) && NoneOverlaps(b, GET, AdminDocuments())
      ensures NoneOverlaps(Append(a, b), GET, AdminDocuments())
    {
      NoneOverlapsJoins(a, b, GET, AdminDocuments());
    }
    hide Append, NoneOverlaps, AuthLegacyRules1, AuthLegacyRules2, AuthLegacyRules3, ContentRules1,
      ContentRules2, ContentRules3, OnlineJudgeLegacyRules, PingRules, DocumentsRules, OpenApiRules,
      AuthV2Rules1, AuthV2Rules2, AuthV2Rules3, AuthV2Rules4, ContentV2Rules1, ContentV2Rules2,
      ContentV2Rules3, ContentV2Rules4, ContentV2Rules5, ReportRules1, ReportRules2, NativeContentRules1,
      NativeContentRules2, NativeContentRules3, NativeContentRules4, OnlineJudgeV2Rules1, OnlineJudgeV2Rules2;
  }

  // ----- Where a denial matters -----

  lemma {:induction false} EitherPart(a: List<AllowRule>, b: List<AllowRule>, m: Method, path: seq<Segment>)
    ensures AnyRuleMatches(Append(a, b), m, path) <==> AnyRuleMatches(a, m, path) || AnyRuleMatches(b, m, path)
  {
    match a
    case Nil =>
    case Cons(_, rest) => EitherPart(rest, b, m, path);
  }

  predicate HasAllowRule(rules: List<AllowRule>, r: AllowRule) {
    rules.Cons? && (rules.head == r || HasAllowRule(rules.tail, r))
  }

  lemma {:induction false} HeldRuleMatches(rules: List<AllowRule>, r: AllowRule, path: seq<Segment>)
    requires HasAllowRule(rules, r) && Matches(r.path, path)
    ensures AnyRuleMatches(rules, r.verb, path)
  {
    if rules.head != r { HeldRuleMatches(rules.tail, r, path); }
  }

  /** Copying assignments within a course. */
  function CopyAssignments(): Pattern {
    Lit(V2, Lit(Admin, Lit(Courses, Star(Lit(Assignments, Lit(Copy, End))))))
  }

  /** One assignment of a course; its id may be "copy". */
  function OneAssignment(): Pattern {
    Lit(V2, Lit(Admin, Lit(Courses, Star(Lit(Assignments, Star(End))))))
  }

  lemma DeniedCopies()
    ensures forall m | m in {GET, PATCH, DELETE} :: HasAllowRule(DeniedCourseRules(), AllowRule(m, CopyAssignments()))
    ensures NoneOverlaps(DeniedCourseRules(), POST, CopyAssignments())
  {
    var last := DeniedCourseRules().tail.tail;
    assert last.head.path == CopyAssignments();
  }

  lemma DeniedReportsAreNoCopies()
    ensures NoneOverlaps(DeniedReportRules(), POST, CopyAssignments())
  {
  }

  lemma AllowedCopy()
    ensures HasAllowRule(ContentV2Rules4(), AllowRule(POST, CopyAssignments()))
  {
  }

  lemma AllowedAssignment()
    ensures HasAllowRule(ContentV2Rules4(), AllowRule(GET, OneAssignment()))
  {
  }

  lemma ContentIsAllowed(m: Method, path: seq<Segment>)
    requires AnyRuleMatches(ContentV2Rules4(), m, path)
    ensures AnyRuleMatches(AllowRules(), m, path)
  {
    forall a, b ensures AnyRuleMatches(Append(a, b), m, path) <==>
        AnyRuleMatches(a, m, path) || AnyRuleMatches(b, m, path) {
      EitherPart(a, b, m, path);
    }
    hide Append, AnyRuleMatches, AuthLegacyRules1, AuthLegacyRules2, AuthLegacyRules3, ContentRules1,
      ContentRules2, ContentRules3, OnlineJudgeLegacyRules, PingRules, DocumentsRules, OpenApiRules,
      AuthV2Rules1, AuthV2Rules2, AuthV2Rules3, AuthV2Rules4, ContentV2Rules1, ContentV2Rules2,
      ContentV2Rules3, ContentV2Rules4, ContentV2Rules5, ReportRules1, ReportRules2, NativeContentRules1,
      NativeContentRules2, NativeContentRules3, NativeContentRules4, OnlineJudgeV2Rules1, OnlineJudgeV2Rules2;
  }

  /** A denial wins over the lists: copying is only ever a POST, although the allow rule for one
      assignment matches the path of a copy too. */
  lemma CopyIsPostOnly(path: seq<Segment>)
    requires Matches(CopyAssignments(), path)
    ensures Evaluate(POST, path) == ALLOW
    ensures forall m | m in {GET, PATCH, DELETE} :: Evaluate(m, path) == EXPLICIT_DENY
    ensures AnyRuleMatches(AllowRules(), GET, path)
  {
    assert Covers(OneAssignment(), CopyAssignments());
    CoversMatches(OneAssignment(), CopyAssignments(), path);
    hide Matches, Append, AnyRuleMatches, AllowRules, DeniedCourseRules, DeniedReportRules, ContentV2Rules4,
      CopyAssignments, OneAssignment;
    DeniedCopies();
    DeniedReportsAreNoCopies();
    AllowedCopy();
    AllowedAssignment();
    HeldRuleMatches(ContentV2Rules4(), AllowRule(POST, CopyAssignments()), path);
    HeldRuleMatches(ContentV2Rules4(), AllowRule(GET, OneAssignment()), path);
    ContentIsAllowed(POST, path);
    ContentIsAllowed(GET, path);
    NoneOverlapsNoneMatches(DeniedCourseRules(), POST, CopyAssignments(), path);
    NoneOverlapsNoneMatches(DeniedReportRules(), POST, CopyAssignments(), path);
    EitherPart(DeniedCourseRules(), DeniedReportRules(), POST, path);
    forall m | m in {GET, PATCH, DELETE} ensures Evaluate(m, path) == EXPLICIT_DENY {
      HeldRuleMatches(DeniedCourseRules(), AllowRule(m, CopyAssignments()), path);
      EitherPart(DeniedCourseRules(), DeniedReportRules(), m, path);
    }
  }
}

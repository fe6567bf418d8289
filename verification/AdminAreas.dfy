/** What this catalog and the allow list decide below the admin areas, and two rules that could go. */
module AdminAreas {
  import opened AccessCatalog
  import opened AccessPolicy
  import opened EndpointAllowlist
  import opened PathPatterns
  import opened Wrappers

  lemma PublicRulesReject(a: Area)
    ensures AllReject(PublicRules(), AnyButOptions, Everything(a))
  {
    hide Rejects, Everything, PreflightOptions, PublicV1AuthPost, PublicV2AuthSessionPost,
      PublicCacheInvalidationPost, PublicPingGet, PublicIndexGet, PublicRootOpenapiGet;
    var last := PublicRules().tail.tail.tail.tail.tail;
    assert AllReject(last.tail, AnyButOptions, Everything(a)) && AllReject(last, AnyButOptions, Everything(a));
    assert AllReject(PublicRules().tail.tail.tail, AnyButOptions, Everything(a));
    assert AllReject(PublicRules().tail, AnyButOptions, Everything(a));
  }

  lemma AccountRulesReject(a: Area)
    ensures AllReject(AccountRules(), AnyButOptions, Everything(a))
  {
    hide Rejects, Everything, PublicSwaggerGet, PublicHealthGet, AuthMeGet, AuthMePost, AuthMePatch,
      AuthProfileImageUploadUrlPost, AuthV1PasswordPost, AuthV2PasswordPatch;
    var last := AccountRules().tail.tail.tail.tail.tail.tail;
    assert AllReject(last.tail, AnyButOptions, Everything(a)) && AllReject(last, AnyButOptions, Everything(a));
    assert AllReject(AccountRules().tail.tail.tail.tail.tail, AnyButOptions, Everything(a));
    assert AllReject(AccountRules().tail.tail.tail, AnyButOptions, Everything(a));
    assert AllReject(AccountRules().tail, AnyButOptions, Everything(a));
  }

  lemma AdminRulesDemand(a: Area)
    ensures Demands(AdminRules(), AnyButOptions, Everything(a), ADMIN_ONLY)
  {
    hide Rejects, Takes, Everything, AdminV1CoursesGet, OrganizerV2UserLookupGet, AdminServiceAny,
      AdminPostCoursesAny, AdminV2CoursesAny, AdminOnlineJudgeAny;
    assert Demands(Cons(AdminOnlineJudgeAny(), Nil), AnyButOptions, Everything(a), ADMIN_ONLY) || a != OnlineJudgeAdmin;
  }

  /** The one early rule that reaches into an admin area, and where it does. */
  lemma DocumentRuleReach(a: Area, m: Method, path: seq<Segment>)
    requires Matches(Everything(a), path)
    ensures Applies(PublicServiceOpenapiGet(), m, path) <==> m == GET && Matches(AdminDocuments(), path)
  {
    DocumentPatterns();
    hide Matches, Covers, Applies, PublicServiceOpenapiGet, AdminDocuments, Everything;
    var document, below := Lit(V2, Star(Lit(V3, Lit(ApiDocs, End)))), Lit(V2, Star(Lit(V3, Lit(ApiDocs, Deep))));
    DocumentRuleMeaning(m, path);
    if Matches(document, path) {
      CoversMatches(below, document, path);
    }
    if Matches(AdminDocuments(), path) {
      CoversMatches(below, AdminDocuments(), path);
    }
    if Matches(below, path) {
      OnlyV2AdminHasDocuments(a, below, path);
    }
  }

  lemma DocumentPatterns()
    ensures Covers(Lit(V2, Star(Lit(V3, Lit(ApiDocs, Deep)))), Lit(V2, Star(Lit(V3, Lit(ApiDocs, End)))))
    ensures Covers(Lit(V2, Star(Lit(V3, Lit(ApiDocs, Deep)))), AdminDocuments())
  {
  }

  lemma OnePattern(p: Pattern, path: seq<Segment>)
    ensures AnyMatches(Cons(p, Nil), path) <==> Matches(p, path)
  {
  }

  lemma TwoPatterns(p: Pattern, q: Pattern, path: seq<Segment>)
    ensures AnyMatches(Cons(p, Cons(q, Nil)), path) <==> Matches(p, path) || Matches(q, path)
  {
    OnePattern(q, path);
  }

  lemma DocumentRuleMeaning(m: Method, path: seq<Segment>)
    ensures Applies(PublicServiceOpenapiGet(), m, path) <==>
            m == GET && (|| Matches(Lit(V2, Star(Lit(V3, Lit(ApiDocs, End)))), path)
                         || Matches(Lit(V2, Star(Lit(V3, Lit(ApiDocs, Deep)))), path))
  {
    hide Matches;
    TwoPatterns(Lit(V2, Star(Lit(V3, Lit(ApiDocs, End)))), Lit(V2, Star(Lit(V3, Lit(ApiDocs, Deep)))), path);
  }

  lemma OnlyV2AdminHasDocuments(a: Area, below: Pattern, path: seq<Segment>)
    requires below == Lit(V2, Star(Lit(V3, Lit(ApiDocs, Deep))))
    requires Matches(below, path) && Matches(Everything(a), path)
    ensures Matches(AdminDocuments(), path)
  {
    OverlapIsNeeded(below, Everything(a), path);
    assert a == V2Admin;
    var rest := path[1..];
    assert Matches(Lit(V3, Lit(ApiDocs, Deep)), rest[1..]);
    assert Matches(Lit(Admin, Deep), rest);
    assert Matches(Lit(Admin, Lit(V3, Lit(ApiDocs, Deep))), rest);
  }

  /** The access layer on its own: below the admin areas it asks for an admin, except that anyone
      may read the documents of a service called "admin". */
  lemma AdminAreaDecision(a: Area, m: Method, path: seq<Segment>)
    requires Matches(Everything(a), path) && m != OPTIONS
    ensures Decide(GlobalRules(), m, path) ==
            Some(if m == GET && Matches(AdminDocuments(), path) then PermitAll else ADMIN_ONLY)
  {
    hide PublicRules, AccountRules, AdminRules, ReaderRules, WriterRules, PublicServiceOpenapiGet, Append,
      Applies, Matches, Decide;
    PublicRulesReject(a);
    AccountRulesReject(a);
    AdminRulesDemand(a);
    DocumentRuleReach(a, m, path);
    DocumentsAreOpen();
    GuardedDecision(PublicRules(), PublicServiceOpenapiGet(), AccountRules(), AdminRules(),
                    Append(ReaderRules(), WriterRules()),
                    AnyButOptions, Everything(a), ADMIN_ONLY, m, path);
  }

  lemma DocumentsAreOpen()
    ensures PublicServiceOpenapiGet().requirement == PermitAll
  {
  }

  /** An anonymous caller reaches an admin area exactly through that exception. */
  lemma AnonymousInAdminAreas(a: Area, m: Method, path: seq<Segment>)
    requires Matches(Everything(a), path) && m != OPTIONS
    ensures Permits(GlobalRules(), m, path, Anonymous) <==> m == GET && Matches(AdminDocuments(), path)
  {
    hide GlobalRules, Matches;
    AdminAreaDecision(a, m, path);
    AnyRoleMeaning({ADMIN}, Anonymous);
  }

  /** The two layers together: what the lists let through below an admin area needs an admin. */
  lemma AllowedAdminRequestsNeedAdmin(a: Area, m: Method, path: seq<Segment>)
    requires Matches(Everything(a), path) && m != OPTIONS && Evaluate(m, path) == ALLOW
    ensures Decide(GlobalRules(), m, path) == Some(ADMIN_ONLY)
    ensures forall c :: Permits(GlobalRules(), m, path, c) <==> c == Bearer(Some(ADMIN))
  {
    hide AllowRules, DenyRules, GlobalRules, Matches, Grants;
    AdminAreaDecision(a, m, path);
    if m == GET && Matches(AdminDocuments(), path) {
      NoAllowRuleReadsAdminDocuments();
      NoneOverlapsNoneMatches(AllowRules(), GET, AdminDocuments(), path);
    }
    forall c ensures Permits(GlobalRules(), m, path, c) <==> c == Bearer(Some(ADMIN)) {
      AnyRoleMeaning({ADMIN}, c);
    }
  }

  /** This catalog ends in the rule for any exchange, so every request has a decision. */
  lemma GlobalRulesAreClosed()
    ensures GlobalRules().Cons? && LastRule(GlobalRules()) == FallbackAuthenticated()
              && FallbackAuthenticated().AnyExchange?
  {
    hide PreflightOptions, PublicServiceOpenapiGet, AccountRules, AdminRules, ReaderRules, PublicRules, WriterRules;
    LastOfWriters();
    LastJoins(ReaderRules(), WriterRules());
    LastJoins(AdminRules(), Append(ReaderRules(), WriterRules()));
    LastJoins(AccountRules(), Append(AdminRules(), Append(ReaderRules(), WriterRules())));
    LastJoins(PublicRules(), Cons(PublicServiceOpenapiGet(),
                                  Append(AccountRules(), Append(AdminRules(), Append(ReaderRules(), WriterRules())))));
  }

  /** For this catalog: every request is decided, and higher roles may do at least as much. */
  lemma GlobalDecisionsAreTotalAndMonotone(m: Method, path: seq<Segment>)
    ensures Decide(GlobalRules(), m, path).Some?
    ensures forall low, high | RoleRank(low) <= RoleRank(high) ::
              Permits(GlobalRules(), m, path, Bearer(Some(low))) ==> Permits(GlobalRules(), m, path, Bearer(Some(high)))
  {
    hide GlobalRules, Decide, LastRule, Permits;
    GlobalRulesAreClosed();
    ClosedCatalogsAreTotalAndMonotone(GlobalRules(), m, path);
  }

  lemma LastOfWriters()
    ensures WriterRules().Cons? && LastRule(WriterRules()) == FallbackAuthenticated()
  {
    hide PublicLegacyPostsGet, PublicNativeBlogsGet, OrganizerContentCreatePost, OrganizerContentUpdatePatch,
      OrganizerContentDelete, OrganizerCollaboratorAddPost, OrganizerImageUploadPost;
    var last := WriterRules().tail.tail.tail.tail;
    assert LastRule(last.tail) == LastRule(last) == FallbackAuthenticated();
    assert LastRule(WriterRules().tail.tail) == FallbackAuthenticated();
  }

  // ----- Rules that change no decision -----

  lemma CatalogAt(rules: List<AccessRule>, i: nat)
    requires i < Length(rules)
    ensures 16 + i < Length(Catalog(rules))
    ensures RuleAt(Catalog(rules), 16 + i) == RuleAt(rules, i)
    ensures WithoutAt(Catalog(rules), 16 + i) == Catalog(WithoutAt(rules, i))
  {
    hide PreflightOptions, PublicV1AuthPost, PublicV2AuthSessionPost, PublicCacheInvalidationPost,
      PublicPingGet, PublicIndexGet, PublicRootOpenapiGet, PublicServiceOpenapiGet, PublicSwaggerGet,
      PublicHealthGet, AuthMeGet, AuthMePost, AuthMePatch, AuthProfileImageUploadUrlPost, AuthV1PasswordPost,
      AuthV2PasswordPatch, Append;
    assert Length(PublicRules()) == 7 && Length(AccountRules()) == 8;
    hide PublicRules, AccountRules;
    var accounts := Append(AccountRules(), rules);
    AtJoins(AccountRules(), rules, i);
    AtJoins(PublicRules(), Cons(PublicServiceOpenapiGet(), accounts), 9 + i);
  }

  lemma EarlierRulesAlike(a: List<AccessRule>, b: List<AccessRule>, m: Method, path: seq<Segment>)
    requires Decide(a, m, path) == Decide(b, m, path)
    ensures Decide(Catalog(a), m, path) == Decide(Catalog(b), m, path)
  {
    hide PublicRules, AccountRules, PublicServiceOpenapiGet, Append;
    DecideJoins(PublicRules(), Cons(PublicServiceOpenapiGet(), Append(AccountRules(), a)), m, path);
    DecideJoins(PublicRules(), Cons(PublicServiceOpenapiGet(), Append(AccountRules(), b)), m, path);
    DecideJoins(AccountRules(), a, m, path);
    DecideJoins(AccountRules(), b, m, path);
  }

  function AreaOf(i: nat): Area {
    if i == 0 then V1Admin else V2Admin
  }

  lemma OthersStillDemand(i: nat)
    requires i == 0 || i == 4
    ensures i < Length(AdminRules())
    ensures Demands(WithoutAt(AdminRules(), i), AnyButOptions, Everything(AreaOf(i)), ADMIN_ONLY)
  {
    hide Rejects, Takes, Everything, AdminV1CoursesGet, OrganizerV2UserLookupGet, AdminServiceAny,
      AdminPostCoursesAny, AdminV2CoursesAny, AdminOnlineJudgeAny;
  }

  lemma RedundantRules()
    ensures Length(AdminRules()) == 6
    ensures RuleAt(AdminRules(), 0) == AdminV1CoursesGet() && RuleAt(AdminRules(), 4) == AdminV2CoursesAny()
  {
    hide AdminV1CoursesGet, OrganizerV2UserLookupGet, AdminServiceAny, AdminPostCoursesAny, AdminV2CoursesAny,
      AdminOnlineJudgeAny;
  }

  lemma RedundantReach(i: nat, m: Method, path: seq<Segment>)
    requires i == 0 || i == 4
    requires Applies(if i == 0 then AdminV1CoursesGet() else AdminV2CoursesAny(), m, path)
    ensures Matches(Everything(AreaOf(i)), path)
  {
    var courses := if i == 0 then Lit(V1, Lit(Admin, Lit(Courses, End))) else Lit(V2, Lit(Admin, Lit(Courses, End)));
    var below := Lit(V2, Lit(Admin, Lit(Courses, Deep)));
    RedundantMeaning(m, path);
    if Matches(courses, path) {
      CoversMatches(Everything(AreaOf(i)), courses, path);
    } else {
      CoversMatches(Everything(V2Admin), below, path);
    }
  }

  lemma RedundantMeaning(m: Method, path: seq<Segment>)
    ensures Applies(AdminV1CoursesGet(), m, path) <==> m == GET && Matches(Lit(V1, Lit(Admin, Lit(Courses, End))), path)
    ensures Applies(AdminV2CoursesAny(), m, path) <==>
            Matches(Lit(V2, Lit(Admin, Lit(Courses, End))), path)
                || Matches(Lit(V2, Lit(Admin, Lit(Courses, Deep))), path)
  {
    hide Matches;
    OnePattern(Lit(V1, Lit(Admin, Lit(Courses, End))), path);
    TwoPatterns(Lit(V2, Lit(Admin, Lit(Courses, End))), Lit(V2, Lit(Admin, Lit(Courses, Deep))), path);
  }

  /** Deleting the rule on "/v1/admin/courses", or the one on "/v2/admin/courses", changes no decision. */
  lemma DeletionChangesNothing(i: nat, m: Method, path: seq<Segment>)
    requires i == 16 || i == 20
    ensures i < Length(GlobalRules())
    ensures RuleAt(GlobalRules(), i) == if i == 16 then AdminV1CoursesGet() else AdminV2CoursesAny()
    ensures Decide(WithoutAt(GlobalRules(), i), m, path) == Decide(GlobalRules(), m, path)
  {
    hide AdminRules, ReaderRules, WriterRules, Catalog, AdminV1CoursesGet, AdminV2CoursesAny, Append, Decide, WithoutAt,
      RuleAt, Demands, Length, Applies, Matches;
    var k, later := i - 16, Append(ReaderRules(), WriterRules());
    var admins := Append(AdminRules(), later);
    RedundantRules();
    AtInFront(AdminRules(), later, k);
    CatalogAt(admins, k);
    if m == OPTIONS {
      PreflightIsOpen(admins, path);
      PreflightIsOpen(WithoutAt(admins, k), path);
    } else {
      if Applies(RuleAt(AdminRules(), k), m, path) {
        RedundantReach(k, m, path);
      }
      AdminRulesDemand(AreaOf(k));
      OthersStillDemand(k);
      CoveredRuleCanGo(AdminRules(), k, later, AnyButOptions, Everything(AreaOf(k)), ADMIN_ONLY, m, path);
      EarlierRulesAlike(admins, WithoutAt(admins, k), m, path);
    }
  }

  lemma PreflightIsOpen(rules: List<AccessRule>, path: seq<Segment>)
    ensures Decide(Catalog(rules), OPTIONS, path) == Some(PermitAll)
  {
    hide PublicV1AuthPost, PublicV2AuthSessionPost, PublicCacheInvalidationPost, PublicPingGet,
      PublicIndexGet, PublicRootOpenapiGet, PublicServiceOpenapiGet, PublicSwaggerGet, PublicHealthGet,
      AuthMeGet, AuthMePost, AuthMePatch, AuthProfileImageUploadUrlPost, AuthV1PasswordPost,
      AuthV2PasswordPatch;
    assert Catalog(rules).head == PreflightOptions();
    assert AnyMatches(PreflightOptions().paths, path);
  }

  lemma PreflightRequestsAreOpen(path: seq<Segment>)
    ensures Decide(GlobalRules(), OPTIONS, path) == Some(PermitAll)
  {
    hide Catalog, Decide;
    PreflightIsOpen(Append(AdminRules(), Append(ReaderRules(), WriterRules())), path);
  }
}

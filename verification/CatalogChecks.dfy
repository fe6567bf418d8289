/** The checks on the catalog when it is loaded: this catalog passes them. */
module CatalogChecks {
  import opened AccessCatalog
  import opened AccessPolicy
  import opened AdminAreas
  import opened PathPatterns

  /** The place in the catalog that the length and two characters of a rule's id give away; 38 is
      the place of no rule. */
  function Place(id: string): nat {
    if |id| < 11 then 38
    else if |id| == 11 then 10
    else if |id| == 12 then 11
    else if |id| == 13 then 12
    else if |id| == 15 then if id[10] == 'g' then 4 else 25
    else if |id| == 16 then 5
    else if |id| == 17 then if id[10] == 'o' then 0 else if id[10] == 'l' then 9 else 18
    else if |id| == 18 then 8
    else if |id| == 19 then 1
    else if |id| == 20 then if id[7] == '1' then 16 else 20
    else if |id| == 21 then 14
    else if |id| == 22 then if id[7] == '-' then 15 else if id[7] == 'o' then 19 else if id[7] == 'n' then 21
      else if id[7] == 't' then 23 else 37
    else if |id| == 23 then if id[7] == 'r' then 6 else if id[7] == 't' then 29 else if id[7] == 'n' then 30 else 31
    else if |id| == 24 then 34
    else if |id| == 26 then 7
    else if |id| == 27 then if id[10] == 'a' then 2 else if id[10] == 's' then 24 else if id[10] == 'l' then 26
      else if id[10] == 'n' then 27 else 36
    else if |id| == 28 then if id[7] == 'e' then 17 else 22
    else if |id| == 29 then 32
    else if |id| == 30 then if id[7] == 'c' then 3 else 33
    else if |id| == 31 then 35
    else if |id| == 32 then 28
    else if |id| == 34 then 13
    else 38
  }

  /** The rules stand at consecutive places. */
  predicate InPlace(rules: List<AccessRule>, from: nat) {
    rules.Nil? || (Place(rules.head.id) == from && InPlace(rules.tail, from + 1))
  }

  lemma {:induction false} EarlierIdsAreOthers(rules: List<AccessRule>, from: nat, id: string)
    requires InPlace(rules, from) && Place(id) < from
    ensures !HasRule(rules, id)
  {
    hide Place;
    if rules.Cons? { EarlierIdsAreOthers(rules.tail, from + 1, id); }
  }

  lemma {:induction false} InPlaceIsUnique(rules: List<AccessRule>, from: nat)
    requires InPlace(rules, from)
    ensures UniqueIds(rules)
  {
    hide Place;
    if rules.Cons? {
      EarlierIdsAreOthers(rules.tail, from + 1, rules.head.id);
      InPlaceIsUnique(rules.tail, from + 1);
    }
  }

  lemma {:induction false} Joined(a: List<AccessRule>, b: List<AccessRule>, from: nat)
    requires InPlace(a, from) && InPlace(b, from + Length(a))
    ensures InPlace(Append(a, b), from)
    ensures FallbackCount(Append(a, b)) == FallbackCount(a) + FallbackCount(b)
  {
    hide Place;
    match a
    case Nil =>
    case Cons(_, rest) => Joined(rest, b, from + 1);
  }

  lemma DocumentsComeNext(later: List<AccessRule>)
    requires InPlace(later, 8)
    ensures InPlace(Cons(PublicServiceOpenapiGet(), later), 7)
    ensures FallbackCount(Cons(PublicServiceOpenapiGet(), later)) == FallbackCount(later)
  {
    LastOfPublic();
    hide PublicServiceOpenapiGet, Place;
  }

  predicate StandsAt(r: AccessRule, place: nat) {
    r.Paths? && Place(r.id) == place
  }

  lemma FirstOfPublic()
    ensures StandsAt(PreflightOptions(), 0)
    ensures StandsAt(PublicV1AuthPost(), 1)
    ensures StandsAt(PublicV2AuthSessionPost(), 2)
    ensures StandsAt(PublicCacheInvalidationPost(), 3)
  {
    hide KeepsOut, Rejects, Everything, Demands, Takes;
  }

  lemma LastOfPublic()
    ensures StandsAt(PublicPingGet(), 4)
    ensures StandsAt(PublicIndexGet(), 5)
    ensures StandsAt(PublicRootOpenapiGet(), 6)
    ensures StandsAt(PublicServiceOpenapiGet(), 7)
  {
    hide KeepsOut, Rejects, Everything, Demands, Takes;
  }

  lemma FirstOfAccount()
    ensures StandsAt(PublicSwaggerGet(), 8)
    ensures StandsAt(PublicHealthGet(), 9)
    ensures StandsAt(AuthMeGet(), 10)
    ensures StandsAt(AuthMePost(), 11)
  {
    hide KeepsOut, Rejects, Everything, Demands, Takes;
  }

  lemma LastOfAccount()
    ensures StandsAt(AuthMePatch(), 12)
    ensures StandsAt(AuthProfileImageUploadUrlPost(), 13)
    ensures StandsAt(AuthV1PasswordPost(), 14)
    ensures StandsAt(AuthV2PasswordPatch(), 15)
  {
    hide KeepsOut, Rejects, Everything, Demands, Takes;
  }

  lemma FirstOfAdmin()
    ensures StandsAt(AdminV1CoursesGet(), 16)
    ensures StandsAt(OrganizerV2UserLookupGet(), 17)
    ensures StandsAt(AdminServiceAny(), 18)
  {
    hide KeepsOut, Rejects, Everything, Demands, Takes;
  }

  lemma LastOfAdmin()
    ensures StandsAt(AdminPostCoursesAny(), 19)
    ensures StandsAt(AdminV2CoursesAny(), 20)
    ensures StandsAt(AdminOnlineJudgeAny(), 21)
  {
    hide KeepsOut, Rejects, Everything, Demands, Takes;
  }

  lemma FirstOfReader()
    ensures StandsAt(UserCoursePostServiceGet(), 22)
    ensures StandsAt(UserNativeCourseGet(), 23)
    ensures StandsAt(UserSubmissionProblemAny(), 24)
    ensures StandsAt(UserReportAny(), 25)
  {
    hide KeepsOut, Rejects, Everything, Demands, Takes;
  }

  lemma LastOfReader()
    ensures StandsAt(OrganizerLegacyDraftsGet(), 26)
    ensures StandsAt(OrganizerNativeDraftsGet(), 27)
    ensures StandsAt(OrganizerNativeOwnContentGet(), 28)
    ensures StandsAt(UserNativeContentGet(), 29)
  {
    hide KeepsOut, Rejects, Everything, Demands, Takes;
  }

  lemma FirstOfWriter()
    ensures StandsAt(PublicNativeBlogsGet(), 30)
    ensures StandsAt(PublicLegacyPostsGet(), 31)
    ensures StandsAt(OrganizerContentCreatePost(), 32)
    ensures StandsAt(OrganizerContentUpdatePatch(), 33)
  {
    hide KeepsOut, Rejects, Everything, Demands, Takes;
  }

  lemma LastOfWriter()
    ensures StandsAt(OrganizerContentDelete(), 34)
    ensures StandsAt(OrganizerCollaboratorAddPost(), 35)
    ensures StandsAt(OrganizerImageUploadPost(), 36)
    ensures Place(FallbackAuthenticated().id) == 37 && FallbackAuthenticated().AnyExchange?
  {
    hide KeepsOut, Rejects, Everything, Demands, Takes;
  }

  lemma PublicRulesCheck()
    ensures InPlace(PublicRules(), 0) && Length(PublicRules()) == 7
    ensures FallbackCount(PublicRules()) == 0
  {
    FirstOfPublic();
    LastOfPublic();
    hide Place, PreflightOptions, PublicV1AuthPost, PublicV2AuthSessionPost, PublicCacheInvalidationPost,
      PublicPingGet, PublicIndexGet, PublicRootOpenapiGet;
  }

  lemma AccountRulesCheck()
    ensures InPlace(AccountRules(), 8) && Length(AccountRules()) == 8
    ensures FallbackCount(AccountRules()) == 0
  {
    FirstOfAccount();
    LastOfAccount();
    hide Place, PublicSwaggerGet, PublicHealthGet, AuthMeGet, AuthMePost, AuthMePatch,
      AuthProfileImageUploadUrlPost, AuthV1PasswordPost, AuthV2PasswordPatch;
  }

  lemma AdminRulesCheck()
    ensures InPlace(AdminRules(), 16) && Length(AdminRules()) == 6
    ensures FallbackCount(AdminRules()) == 0
  {
    FirstOfAdmin();
    LastOfAdmin();
    hide Place, AdminV1CoursesGet, OrganizerV2UserLookupGet, AdminServiceAny, AdminPostCoursesAny,
      AdminV2CoursesAny, AdminOnlineJudgeAny;
  }

  lemma ReaderRulesCheck()
    ensures InPlace(ReaderRules(), 22) && Length(ReaderRules()) == 8
    ensures FallbackCount(ReaderRules()) == 0
  {
    FirstOfReader();
    LastOfReader();
    hide Place, UserCoursePostServiceGet, UserNativeCourseGet, UserSubmissionProblemAny, UserReportAny,
      OrganizerLegacyDraftsGet, OrganizerNativeDraftsGet, OrganizerNativeOwnContentGet, UserNativeContentGet;
  }

  lemma WriterRulesCheck()
    ensures InPlace(WriterRules(), 30) && Length(WriterRules()) == 8
    ensures FallbackCount(WriterRules()) == 1
  {
    FirstOfWriter();
    LastOfWriter();
    hide Place, PublicNativeBlogsGet, PublicLegacyPostsGet, OrganizerContentCreatePost,
      OrganizerContentUpdatePatch, OrganizerContentDelete, OrganizerCollaboratorAddPost,
      OrganizerImageUploadPost, FallbackAuthenticated;
  }

  /** This catalog passes every check on the order of the rules and on their ids. */
  lemma GlobalRulesAreAccepted()
    ensures Accepted(GlobalRules())
  {
    hide Place, PublicRules, AccountRules, AdminRules, ReaderRules, WriterRules, PublicServiceOpenapiGet, Append,
        InPlace, Length,
      FallbackCount, UniqueIds;
    PublicRulesCheck();
    AccountRulesCheck();
    AdminRulesCheck();
    ReaderRulesCheck();
    WriterRulesCheck();
    var content := Append(ReaderRules(), WriterRules());
    Joined(ReaderRules(), WriterRules(), 22);
    Joined(AdminRules(), content, 16);
    Joined(AccountRules(), Append(AdminRules(), content), 8);
    var later := Append(AccountRules(), Append(AdminRules(), content));
    DocumentsComeNext(later);
    Joined(PublicRules(), Cons(PublicServiceOpenapiGet(), later), 0);
    InPlaceIsUnique(GlobalRules(), 0);
    GlobalRulesAreClosed();
    FallbackNeedsAuthentication();
  }

  lemma FallbackNeedsAuthentication()
    ensures FallbackAuthenticated().requirement == Authenticated
  {
  }
}

/** The ordered catalog of access rules. */
module AccessCatalog {
  import opened AccessPolicy
  import opened PathPatterns
  import opened Wrappers

  const USER_ORGANIZER_ADMIN: Requirement := AnyRole({USER, ORGANIZER, ADMIN})
  const ORGANIZER_ADMIN: Requirement := AnyRole({ORGANIZER, ADMIN})
  const ADMIN_ONLY: Requirement := AnyRole({ADMIN})

  function GlobalRules(): List<AccessRule> {
    Catalog(Append(AdminRules(), Append(ReaderRules(), WriterRules())))
  }

  /** The rules before those of the admin areas, then the given ones. */
  function Catalog(rules: List<AccessRule>): List<AccessRule> {
    Append(PublicRules(), Cons(PublicServiceOpenapiGet(), Append(AccountRules(), rules)))
  }

  function PublicRules(): List<AccessRule> {
    Cons(PreflightOptions(),
    Cons(PublicV1AuthPost(),
    Cons(PublicV2AuthSessionPost(),
    Cons(PublicCacheInvalidationPost(),
    Cons(PublicPingGet(),
    Cons(PublicIndexGet(),
    Cons(PublicRootOpenapiGet(),
    Nil)))))))
  }

  function AccountRules(): List<AccessRule> {
    Cons(PublicSwaggerGet(),
    Cons(PublicHealthGet(),
    Cons(AuthMeGet(),
    Cons(AuthMePost(),
    Cons(AuthMePatch(),
    Cons(AuthProfileImageUploadUrlPost(),
    Cons(AuthV1PasswordPost(),
    Cons(AuthV2PasswordPatch(),
    Nil))))))))
  }

  function AdminRules(): List<AccessRule> {
    Cons(AdminV1CoursesGet(),
    Cons(OrganizerV2UserLookupGet(),
    Cons(AdminServiceAny(),
    Cons(AdminPostCoursesAny(),
    Cons(AdminV2CoursesAny(),
    Cons(AdminOnlineJudgeAny(),
    Nil))))))
  }

  function ReaderRules(): List<AccessRule> {
    Cons(UserCoursePostServiceGet(),
    Cons(UserNativeCourseGet(),
    Cons(UserSubmissionProblemAny(),
    Cons(UserReportAny(),
    Cons(OrganizerLegacyDraftsGet(),
    Cons(OrganizerNativeDraftsGet(),
    Cons(OrganizerNativeOwnContentGet(),
    Cons(UserNativeContentGet(),
    Nil))))))))
  }

  function WriterRules(): List<AccessRule> {
    Cons(PublicNativeBlogsGet(),
    Cons(PublicLegacyPostsGet(),
    Cons(OrganizerContentCreatePost(),
    Cons(OrganizerContentUpdatePatch(),
    Cons(OrganizerContentDelete(),
    Cons(OrganizerCollaboratorAddPost(),
    Cons(OrganizerImageUploadPost(),
    Cons(FallbackAuthenticated(),
    Nil))))))))
  }

  // ----- The rules, in their order -----

  function PreflightOptions(): (r: AccessRule)
    ensures KeepsOut(r)
  {
    Paths("preflight-options", Some(OPTIONS), Cons(Deep, Nil), PermitAll)
  }

  function PublicV1AuthPost(): (r: AccessRule)
    ensures KeepsOut(r)
  {
    Paths("public-v1-auth-post", Some(POST), Cons(Lit(V1, Lit(Auth, Deep)), Nil), PermitAll)
  }

  function PublicV2AuthSessionPost(): (r: AccessRule)
    ensures KeepsOut(r)
  {
    Paths("public-v2-auth-session-post", Some(POST),
      Cons(Lit(V2, Lit(Auth, Lit(Login, End))),
      Cons(Lit(V2, Lit(Auth, Lit(Refresh, End))),
      Cons(Lit(V2, Lit(Auth, Lit(Logout, End))),
      Cons(Lit(Activate, End),
      Cons(Lit(V2, Lit(Activate, End)),
      Nil))))), PermitAll)
  }

  function PublicCacheInvalidationPost(): (r: AccessRule)
    ensures KeepsOut(r)
  {
    Paths("public-cache-invalidation-post", Some(POST),
      Cons(Lit(Internal, Lit(V1, Lit(Cache, Lit(Invalidation, End)))),
      Nil), PermitAll)
  }

  function PublicPingGet(): (r: AccessRule)
    ensures KeepsOut(r)
  {
    Paths("public-ping-get", Some(GET),
      Cons(Lit(Api, Lit(Ping, Deep)),
      Cons(Lit(V2, Lit(Ping, Deep)),
      Nil)), PermitAll)
  }

  function PublicIndexGet(): (r: AccessRule)
    ensures KeepsOut(r)
  {
    Paths("public-index-get", Some(GET), Cons(Lit(Empty, End), Cons(Lit(IndexHtml, End), Nil)), PermitAll)
  }

  function PublicRootOpenapiGet(): (r: AccessRule)
    ensures KeepsOut(r)
  {
    Paths("public-root-openapi-get", Some(GET),
      Cons(Lit(V3, Lit(ApiDocs, End)),
      Cons(Lit(V3, Lit(ApiDocs, Deep)),
      Nil)), PermitAll)
  }

  function PublicServiceOpenapiGet(): AccessRule {
    Paths("public-service-openapi-get", Some(GET),
      Cons(Lit(V2, Star(Lit(V3, Lit(ApiDocs, End)))),
      Cons(Lit(V2, Star(Lit(V3, Lit(ApiDocs, Deep)))),
      Nil)), PermitAll)
  }

  function PublicSwaggerGet(): (r: AccessRule)
    ensures KeepsOut(r)
  {
    Paths("public-swagger-get", Some(GET),
      Cons(Lit(SwaggerUiHtml, End),
      Cons(Lit(SwaggerUi, Deep),
      Cons(Lit(V2, Lit(Docs, End)),
      Cons(Lit(V2, Lit(Docs, Deep)),
      Cons(Lit(V2, Lit(SwaggerUi, Lit(IndexHtml, End))),
      Cons(Lit(V2, Lit(SwaggerUi, Deep)),
      Nil)))))), PermitAll)
  }

  function PublicHealthGet(): (r: AccessRule)
    ensures KeepsOut(r)
  {
    Paths("public-health-get", Some(GET),
      Cons(Lit(Actuator, Lit(Health, End)),
      Cons(Lit(Actuator, Lit(Health, Deep)),
      Nil)), PermitAll)
  }

  function AuthMeGet(): (r: AccessRule)
    ensures KeepsOut(r)
  {
    Paths("auth-me-get", Some(GET),
      Cons(Lit(V1, Lit(Me, End)),
      Cons(Lit(V2, Lit(Auth, Lit(Me, End))),
      Cons(Lit(V2, Lit(Me, End)),
      Nil))), USER_ORGANIZER_ADMIN)
  }

  function AuthMePost(): (r: AccessRule)
    ensures KeepsOut(r)
  {
    Paths("auth-me-post", Some(POST),
      Cons(Lit(V1, Lit(Me, End)),
      Cons(Lit(V2, Lit(Auth, Lit(Me, End))),
      Nil)), USER_ORGANIZER_ADMIN)
  }

  function AuthMePatch(): (r: AccessRule)
    ensures KeepsOut(r)
  {
    Paths("auth-me-patch", Some(PATCH),
      Cons(Lit(V1, Lit(Me, End)),
      Cons(Lit(V2, Lit(Auth, Lit(Me, End))),
      Cons(Lit(V2, Lit(Me, End)),
      Nil))), USER_ORGANIZER_ADMIN)
  }

  function AuthProfileImageUploadUrlPost(): (r: AccessRule)
    ensures KeepsOut(r)
  {
    Paths("auth-profile-image-upload-url-post", Some(POST),
      Cons(Lit(V2, Lit(Me, Lit(ProfileImage, Lit(UploadUrl, End)))),
      Nil), USER_ORGANIZER_ADMIN)
  }

  function AuthV1PasswordPost(): (r: AccessRule)
    ensures KeepsOut(r)
  {
    Paths("auth-v1-password-post", Some(POST),
      Cons(Lit(V1, Lit(Me, Lit(Password, End))),
      Nil), USER_ORGANIZER_ADMIN)
  }

  function AuthV2PasswordPatch(): (r: AccessRule)
    ensures KeepsOut(r)
  {
    Paths("auth-v2-password-patch", Some(PATCH),
      Cons(Lit(V2, Lit(Me, Lit(Password, End))),
      Nil), USER_ORGANIZER_ADMIN)
  }

  function AdminV1CoursesGet(): (r: AccessRule)
    ensures r.requirement == ADMIN_ONLY
  {
    Paths("admin-v1-courses-get", Some(GET), Cons(Lit(V1, Lit(Admin, Lit(Courses, End))), Nil), ADMIN_ONLY)
  }

  function OrganizerV2UserLookupGet(): (r: AccessRule)
    ensures KeepsOut(r)
  {
    Paths("organizer-v2-user-lookup-get", Some(GET),
      Cons(Lit(V2, Lit(Users, Lit(Lookup, End))),
      Nil), ORGANIZER_ADMIN)
  }

  function AdminServiceAny(): (r: AccessRule)
    ensures r.requirement == ADMIN_ONLY
    ensures Takes(r, Everything(V1Admin)) && Takes(r, Everything(V2Admin)) && Takes(r, Everything(AuthAdmin))
  {
    assert Covers(Lit(V1, Lit(Admin, Deep)), Everything(V1Admin));
    assert Covers(Lit(V2, Lit(Auth, Lit(Admin, Deep))), Everything(AuthAdmin));
    assert Covers(Lit(V2, Lit(Admin, Deep)), Everything(V2Admin));
    Paths("admin-service-any", None,
      Cons(Lit(V1, Lit(Admin, End)),
      Cons(Lit(V1, Lit(Admin, Deep)),
      Cons(Lit(V2, Lit(Auth, Lit(Admin, Deep))),
      Cons(Lit(V2, Lit(Admin, Deep)),
      Nil)))), ADMIN_ONLY)
  }

  function AdminPostCoursesAny(): (r: AccessRule)
    ensures r.requirement == ADMIN_ONLY && Takes(r, Everything(PostCourses))
  {
    assert Covers(Lit(V2, Lit(Post, Lit(Admin, Lit(Courses, Deep)))), Everything(PostCourses));
    Paths("admin-post-courses-any", None,
      Cons(Lit(V2, Lit(Post, Lit(Admin, Lit(Courses, End)))),
      Cons(Lit(V2, Lit(Post, Lit(Admin, Lit(Courses, Deep)))),
      Nil)), ADMIN_ONLY)
  }

  function AdminV2CoursesAny(): (r: AccessRule)
    ensures r.requirement == ADMIN_ONLY
  {
    Paths("admin-v2-courses-any", None,
      Cons(Lit(V2, Lit(Admin, Lit(Courses, End))),
      Cons(Lit(V2, Lit(Admin, Lit(Courses, Deep))),
      Nil)), ADMIN_ONLY)
  }

  function AdminOnlineJudgeAny(): (r: AccessRule)
    ensures r.requirement == ADMIN_ONLY && Takes(r, Everything(OnlineJudgeAdmin))
  {
    Paths("admin-online-judge-any", None,
      Cons(Lit(V2, Lit(OnlineJudge, Lit(Admin, Deep))),
      Nil), ADMIN_ONLY)
  }

  function UserCoursePostServiceGet(): AccessRule {
    Paths("user-course-post-service-get", Some(GET),
      Cons(Lit(V1, Lit(Courses, End)),
      Cons(Lit(V1, Lit(Courses, Deep)),
      Cons(Lit(V2, Lit(Post, Lit(Courses, End))),
      Cons(Lit(V2, Lit(Post, Lit(Courses, Deep))),
      Nil)))), USER_ORGANIZER_ADMIN)
  }

  function UserNativeCourseGet(): AccessRule {
    Paths("user-native-course-get", Some(GET),
      Cons(Lit(V2, Lit(Courses, End)),
      Cons(Lit(V2, Lit(Courses, Deep)),
      Cons(Lit(V2, Lit(Assignments, Star(Lit(Course, End)))),
      Nil))), USER_ORGANIZER_ADMIN)
  }

  function UserSubmissionProblemAny(): AccessRule {
    Paths("user-submission-problem-any", None,
      Cons(Lit(V2, Lit(Submissions, Deep)),
      Cons(Lit(V2, Lit(Problems, Deep)),
      Nil)), USER_ORGANIZER_ADMIN)
  }

  function UserReportAny(): AccessRule {
    Paths("user-report-any", None,
      Cons(Lit(V1, Lit(Report, End)),
      Cons(Lit(V1, Lit(Report, Deep)),
      Cons(Lit(V2, Lit(Report, End)),
      Cons(Lit(V2, Lit(Report, Deep)),
      Nil)))), USER_ORGANIZER_ADMIN)
  }

  function OrganizerLegacyDraftsGet(): AccessRule {
    Paths("organizer-legacy-drafts-get", Some(GET),
      Cons(Lit(V1, Lit(Posts, Lit(Drafts, End))),
      Cons(Lit(V1, Lit(Posts, Lit(Drafts, Deep))),
      Cons(Lit(V2, Lit(Post, Lit(Drafts, End))),
      Cons(Lit(V2, Lit(Post, Lit(Drafts, Deep))),
      Nil)))), ORGANIZER_ADMIN)
  }

  function OrganizerNativeDraftsGet(): AccessRule {
    Paths("organizer-native-drafts-get", Some(GET),
      Cons(Lit(V2, Lit(Posts, Lit(Drafts, End))),
      Cons(Lit(V2, Lit(Posts, Lit(Drafts, Deep))),
      Cons(Lit(V2, Lit(Blogs, Lit(Drafts, End))),
      Cons(Lit(V2, Lit(Blogs, Lit(Drafts, Deep))),
      Cons(Lit(V2, Lit(Lectures, Lit(Drafts, End))),
      Cons(Lit(V2, Lit(Lectures, Lit(Drafts, Deep))),
      Nil)))))), ORGANIZER_ADMIN)
  }

  function OrganizerNativeOwnContentGet(): AccessRule {
    Paths("organizer-native-own-content-get", Some(GET),
      Cons(Lit(V2, Lit(Posts, Lit(Me, End))),
      Cons(Lit(V2, Lit(Posts, Lit(Scheduled, Lit(Me, End)))),
      Cons(Lit(V2, Lit(Blogs, Lit(Me, End))),
      Cons(Lit(V2, Lit(Blogs, Lit(Scheduled, Lit(Me, End)))),
      Cons(Lit(V2, Lit(Lectures, Lit(Me, End))),
      Cons(Lit(V2, Lit(Lectures, Lit(Scheduled, Lit(Me, End)))),
      Nil)))))), ORGANIZER_ADMIN)
  }

  function UserNativeContentGet(): AccessRule {
    Paths("user-native-content-get", Some(GET),
      Cons(Lit(V2, Lit(Posts, End)),
      Cons(Lit(V2, Lit(Posts, Star(End))),
      Cons(Lit(V2, Lit(Lectures, End)),
      Cons(Lit(V2, Lit(Lectures, Star(End))),
      Nil)))), USER_ORGANIZER_ADMIN)
  }

  function PublicNativeBlogsGet(): AccessRule {
    Paths("public-native-blogs-get", Some(GET),
      Cons(Lit(V2, Lit(Blogs, End)),
      Cons(Lit(V2, Lit(Blogs, Star(End))),
      Nil)), PermitAll)
  }

  function PublicLegacyPostsGet(): AccessRule {
    Paths("public-legacy-posts-get", Some(GET),
      Cons(Lit(V1, Lit(Posts, End)),
      Cons(Lit(V1, Lit(Posts, Star(End))),
      Cons(Lit(V2, Lit(Post, End)),
      Cons(Lit(V2, Lit(Post, Star(End))),
      Nil)))), PermitAll)
  }

  function OrganizerContentCreatePost(): AccessRule {
    Paths("organizer-content-create-post", Some(POST),
      Cons(Lit(V1, Lit(Posts, End)),
      Cons(Lit(V2, Lit(Post, End)),
      Cons(Lit(V2, Lit(Posts, End)),
      Cons(Lit(V2, Lit(Blogs, End)),
      Cons(Lit(V2, Lit(Lectures, End)),
      Nil))))), ORGANIZER_ADMIN)
  }

  function OrganizerContentUpdatePatch(): AccessRule {
    Paths("organizer-content-update-patch", Some(PATCH),
      Cons(Lit(V1, Lit(Posts, Star(End))),
      Cons(Lit(V2, Lit(Post, Star(End))),
      Cons(Lit(V2, Lit(Posts, Star(End))),
      Cons(Lit(V2, Lit(Blogs, Star(End))),
      Cons(Lit(V2, Lit(Lectures, Star(End))),
      Nil))))), ORGANIZER_ADMIN)
  }

  function OrganizerContentDelete(): AccessRule {
    Paths("organizer-content-delete", Some(DELETE),
      Cons(Lit(V1, Lit(Posts, Star(End))),
      Cons(Lit(V2, Lit(Post, Star(End))),
      Cons(Lit(V2, Lit(Posts, Star(End))),
      Cons(Lit(V2, Lit(Blogs, Star(End))),
      Cons(Lit(V2, Lit(Lectures, Star(End))),
      Nil))))), ORGANIZER_ADMIN)
  }

  function OrganizerCollaboratorAddPost(): AccessRule {
    Paths("organizer-collaborator-add-post", Some(POST),
      Cons(Lit(V2, Lit(Posts, Star(Lit(Collaborators, End)))),
      Nil), ORGANIZER_ADMIN)
  }

  function OrganizerImageUploadPost(): AccessRule {
    Paths("organizer-image-upload-post", Some(POST),
      Cons(Lit(V1, Lit(Posts, Lit(Images, End))),
      Cons(Lit(V2, Lit(Post, Lit(Images, End))),
      Cons(Lit(V2, Lit(Post, Lit(Images, Deep))),
      Cons(Lit(V2, Lit(Posts, Lit(Images, End))),
      Nil)))), ORGANIZER_ADMIN)
  }

  function FallbackAuthenticated(): AccessRule {
    AnyExchange("fallback-authenticated", Authenticated)
  }
}

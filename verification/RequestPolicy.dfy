/** The request policy filter, and the filter, the security chain and the catalog as one decision. */
module RequestPolicy {
  import opened AccessCatalog
  import opened AccessPolicy
  import opened AdminAreas
  import opened CatalogChecks
  import opened EndpointAllowlist
  import opened PathPatterns
  import opened SecurityChain
  import opened Text
  import opened Wrappers

  datatype Policy = Policy(
    enforceHttps: bool,
    allowedHosts: set<string>,
    allowPrivateIpHost: bool,
    enforceMethodPathAllowlist: bool,
    enforceJsonContentType: bool)

  /** What the filter reads of a request: `secure` for TLS or a forwarded protocol of https, the
      lower-case host (empty without one) and whether it is a private address. */
  datatype Request = Request(
    verb: Method,
    path: seq<Segment>,
    secure: bool,
    host: string,
    privateHost: bool,
    jsonBody: bool)

  datatype Outcome = Forward | HttpsRequired | HostNotAllowed | EndpointNotAllowlisted | JsonContentTypeRequired

  function HealthPaths(): List<Pattern> {
    Cons(Lit(Actuator, Lit(Health, End)), Cons(Lit(Actuator, Lit(Health, Deep)), Nil))
  }

  /** The list of one kind of content, and one of its items. */
  function ListAndItem(a: Segment, b: Segment, more: List<Pattern>): List<Pattern> {
    Cons(Lit(a, Lit(b, End)), Cons(Lit(a, Lit(b, Star(End))), more))
  }

  function JsonExemptions(): List<Pattern> {
    Cons(Lit(V1, Lit(Me, End)),
    ListAndItem(V1, Posts,
    Cons(Lit(V1, Lit(Posts, Lit(Images, End))),
    Cons(Lit(V2, Lit(Me, End)),
    PostExemptions()))))
  }

  function PostExemptions(): List<Pattern> {
    ListAndItem(V2, Post,
    Cons(Lit(V2, Lit(Post, Lit(Images, End))),
    Cons(Lit(V2, Lit(Post, Lit(Images, Deep))),
    NativeExemptions())))
  }

  function NativeExemptions(): List<Pattern> {
    ListAndItem(V2, Posts,
    Cons(Lit(V2, Lit(Posts, Lit(Images, End))),
    ListAndItem(V2, Blogs,
    ListAndItem(V2, Lectures, Nil))))
  }

  predicate HealthCheck(r: Request) {
    r.verb == GET && AnyMatches(HealthPaths(), r.path)
  }

  predicate HostAllowed(policy: Policy, r: Request) {
    || policy.allowedHosts == {}
    || (!Blank(r.host) && (r.host in policy.allowedHosts || (policy.allowPrivateIpHost && r.privateHost)))
  }

  predicate NeedsJson(r: Request) {
    (r.verb == POST || r.verb == PUT || r.verb == PATCH) && !AnyMatches(JsonExemptions(), r.path) && !r.jsonBody
  }

  function Filter(policy: Policy, r: Request): Outcome {
    if r.verb == OPTIONS then Forward
    else if HealthCheck(r) then Forward
    else if policy.enforceHttps && !r.secure then HttpsRequired
    else if !HostAllowed(policy, r) then HostNotAllowed
    else if policy.enforceMethodPathAllowlist && Evaluate(r.verb, r.path) != ALLOW then EndpointNotAllowlisted
    else if policy.enforceJsonContentType && NeedsJson(r) then JsonContentTypeRequired
    else Forward
  }

  lemma Behind(a: Segment, b: Segment, rest: Pattern, path: seq<Segment>)
    ensures Matches(Lit(a, Lit(b, rest)), path) <==>
            |path| >= 2 && path[0] == a && path[1] == b && Matches(rest, path[2..])
  {
    if |path| >= 2 {
      assert path[1..][1..] == path[2..];
      assert Matches(Lit(b, rest), path[1..]) <==> path[1] == b && Matches(rest, path[2..]);
    } else if |path| == 1 {
      assert !Matches(Lit(b, rest), path[1..]);
    }
  }

  lemma HealthMeaning(path: seq<Segment>)
    ensures AnyMatches(HealthPaths(), path) <==> |path| >= 2 && path[0] == Actuator && path[1] == Health
  {
    Behind(Actuator, Health, End, path);
    Behind(Actuator, Health, Deep, path);
    assert forall p :: Matches(Deep, p);
    hide Matches;
    TwoPatterns(Lit(Actuator, Lit(Health, End)), Lit(Actuator, Lit(Health, Deep)), path);
  }

  /** Where content may be uploaded: an account's own profile, posts and the like, and their images. */
  predicate TakesUploads(path: seq<Segment>) {
    || path == [V1, Me] || path == [V2, Me]
    || (2 <= |path| <= 3 && (|path| == 3 ==> path[2] != Empty)
        && ((path[0] == V1 && path[1] == Posts) || (path[0] == V2 && path[1] in {Post, Posts, Blogs, Lectures})))
    || (|path| >= 3 && path[0] == V2 && path[1] == Post && path[2] == Images)
  }

  lemma OneSegment(path: seq<Segment>)
    ensures Matches(Star(End), path) <==> |path| == 1 && path[0] != Empty
    ensures Matches(Lit(Images, End), path) <==> path == [Images]
    ensures Matches(Lit(Images, Deep), path) <==> path != [] && path[0] == Images
    ensures Matches(End, path) <==> path == []
  {
  }

  lemma ListAndItemMeaning(a: Segment, b: Segment, more: List<Pattern>, path: seq<Segment>)
    ensures AnyMatches(ListAndItem(a, b, more), path) <==>
            || (2 <= |path| <= 3 && path[0] == a && path[1] == b && (|path| == 3 ==> path[2] != Empty))
            || AnyMatches(more, path)
  {
    Behind(a, b, End, path);
    Behind(a, b, Star(End), path);
    if |path| >= 2 { OneSegment(path[2..]); }
    hide Matches;
    var items := Cons(Lit(a, Lit(b, Star(End))), more);
    assert AnyMatches(items, path) <==> Matches(Lit(a, Lit(b, Star(End))), path) || AnyMatches(more, path);
  }

  lemma OneMorePattern(p: Pattern, more: List<Pattern>, path: seq<Segment>)
    ensures AnyMatches(Cons(p, more), path) <==> Matches(p, path) || AnyMatches(more, path)
  {
    hide Matches;
  }

  lemma ImagesMeaning(a: Segment, b: Segment, path: seq<Segment>)
    ensures Matches(Lit(a, Lit(b, Lit(Images, End))), path) <==> path == [a, b, Images]
    ensures Matches(Lit(a, Lit(b, Lit(Images, Deep))), path) <==>
            |path| >= 3 && path[0] == a && path[1] == b && path[2] == Images
    ensures Matches(Lit(a, Lit(b, End)), path) <==> path == [a, b]
  {
    Behind(a, b, Lit(Images, End), path);
    Behind(a, b, Lit(Images, Deep), path);
    Behind(a, b, End, path);
    hide Matches;
    if |path| >= 2 {
      OneSegment(path[2..]);
      assert path == [path[0], path[1]] + path[2..];
    }
  }

  lemma NativeMeaning(path: seq<Segment>)
    ensures AnyMatches(NativeExemptions(), path) <==>
            2 <= |path| <= 3 && (|path| == 3 ==> path[2] != Empty) && path[0] == V2
                && path[1] in {Posts, Blogs, Lectures}
  {
    var lectures := ListAndItem(V2, Lectures, Nil);
    var blogs := ListAndItem(V2, Blogs, lectures);
    ListAndItemMeaning(V2, Lectures, Nil, path);
    ListAndItemMeaning(V2, Blogs, lectures, path);
    OneMorePattern(Lit(V2, Lit(Posts, Lit(Images, End))), blogs, path);
    ListAndItemMeaning(V2, Posts, Cons(Lit(V2, Lit(Posts, Lit(Images, End))), blogs), path);
    ImagesMeaning(V2, Posts, path);
    assert !AnyMatches(Nil, path);
    assert NativeExemptions() == ListAndItem(V2, Posts, Cons(Lit(V2, Lit(Posts, Lit(Images, End))), blogs));
    hide Matches, AnyMatches, ListAndItem, NativeExemptions;
  }

  lemma PostMeaning(path: seq<Segment>)
    ensures AnyMatches(PostExemptions(), path) <==>
            || (|path| >= 3 && path[0] == V2 && path[1] == Post && path[2] == Images)
            || (2 <= |path| <= 3 && (|path| == 3 ==> path[2] != Empty) && path[0] == V2
                && path[1] in {Post, Posts, Blogs, Lectures})
  {
    NativeMeaning(path);
    var below := Cons(Lit(V2, Lit(Post, Lit(Images, Deep))), NativeExemptions());
    OneMorePattern(Lit(V2, Lit(Post, Lit(Images, Deep))), NativeExemptions(), path);
    OneMorePattern(Lit(V2, Lit(Post, Lit(Images, End))), below, path);
    ListAndItemMeaning(V2, Post, Cons(Lit(V2, Lit(Post, Lit(Images, End))), below), path);
    ImagesMeaning(V2, Post, path);
    hide Matches, AnyMatches, ListAndItem, NativeExemptions;
  }

  lemma ExemptionMeaning(path: seq<Segment>)
    ensures AnyMatches(JsonExemptions(), path) <==> TakesUploads(path)
  {
    PostMeaning(path);
    var own := Cons(Lit(V2, Lit(Me, End)), PostExemptions());
    var images := Cons(Lit(V1, Lit(Posts, Lit(Images, End))), own);
    OneMorePattern(Lit(V2, Lit(Me, End)), PostExemptions(), path);
    OneMorePattern(Lit(V1, Lit(Posts, Lit(Images, End))), own, path);
    ListAndItemMeaning(V1, Posts, images, path);
    OneMorePattern(Lit(V1, Lit(Me, End)), ListAndItem(V1, Posts, images), path);
    ImagesMeaning(V1, Me, path);
    ImagesMeaning(V2, Me, path);
    ImagesMeaning(V1, Posts, path);
    hide Matches, AnyMatches, ListAndItem, PostExemptions;
  }

  /** A request is forwarded exactly if it is a preflight or a health check, or every check that is enforced
      lets it pass; what rejects it is the first check that does not. */
  lemma ForwardedExactly(policy: Policy, r: Request)
    ensures var exempt := || r.verb == OPTIONS
                          || (r.verb == GET && |r.path| >= 2 && r.path[0] == Actuator && r.path[1] == Health);
            var secure := policy.enforceHttps ==> r.secure;
            var host := policy.allowedHosts != {} ==>
                          && Trim(r.host) != ""
                          && (r.host in policy.allowedHosts || (policy.allowPrivateIpHost && r.privateHost));
            var listed := policy.enforceMethodPathAllowlist ==> Evaluate(r.verb, r.path) == ALLOW;
            var json := policy.enforceJsonContentType && (r.verb == POST || r.verb == PUT || r.verb == PATCH) ==>
                          r.jsonBody || TakesUploads(r.path);
            && (Filter(policy, r) == Forward <==> exempt || (secure && host && listed && json))
            && (Filter(policy, r) == HttpsRequired <==> !exempt && !secure)
            && (Filter(policy, r) == HostNotAllowed <==> !exempt && secure && !host)
            && (Filter(policy, r) == EndpointNotAllowlisted <==> !exempt && secure && host && !listed)
            && (Filter(policy, r) == JsonContentTypeRequired <==> !exempt && secure && host && listed && !json)
  {
    HealthMeaning(r.path);
    ExemptionMeaning(r.path);
    hide AnyMatches, HealthPaths, JsonExemptions, Evaluate, Trim, TakesUploads;
  }

  lemma HealthIsNoAdminArea(a: Area, path: seq<Segment>)
    requires Matches(Everything(a), path)
    ensures !AnyMatches(HealthPaths(), path)
  {
    PatternsDecide(HealthPaths(), Everything(a), path);
  }

  /** The chain that the configuration builds from this catalog: no call of it is refused. */
  method ConfigureExchanges() returns (chain: AuthorizeExchangeSpec)
    ensures fresh(chain) && chain.entries == EntriesOf(GlobalRules()) && chain.anyExchangeRegistered
    ensures forall m, path, c :: ChainPermits(chain.entries, m, path, c) <==> Permits(GlobalRules(), m, path, c)
  {
    hide GlobalRules, Accepted, EntriesOf, ChainPermits, Permits;
    GlobalRulesAreAccepted();
    chain := new AuthorizeExchangeSpec();
    chain.Register(GlobalRules());
  }

  /** Filter and chain: below an admin area, a request that the filter forwards while the allow list
      is enforced and the chain permits was made by an admin, or is a preflight request. */
  lemma AdminAreasAreForAdmins(policy: Policy, r: Request, a: Area, c: Caller)
    requires Matches(Everything(a), r.path) && policy.enforceMethodPathAllowlist
    requires Filter(policy, r) == Forward
    ensures ChainPermits(EntriesOf(GlobalRules()), r.verb, r.path, c) <==> r.verb == OPTIONS || c == Bearer(Some(ADMIN))
  {
    hide GlobalRules, AllowRules, DenyRules, JsonExemptions, HealthPaths, Matches, AnyMatches, Grants, EntriesOf,
        ChainPermits;
    EntriesDecideAsRules(GlobalRules(), r.verb, r.path, c);
    if r.verb == OPTIONS {
      PreflightRequestsAreOpen(r.path);
      PermitAllIsOpen(c);
    } else {
      HealthIsNoAdminArea(a, r.path);
      AllowedAdminRequestsNeedAdmin(a, r.verb, r.path);
    }
  }

  /** Without the allow list the same holds but for reading the documents of a service "admin". */
  lemma AdminAreasWithoutTheAllowlist(policy: Policy, r: Request, a: Area, c: Caller)
    requires Matches(Everything(a), r.path) && !policy.enforceMethodPathAllowlist
    requires Filter(policy, r) == Forward && r.verb != OPTIONS
    ensures ChainPermits(EntriesOf(GlobalRules()), r.verb, r.path, c) <==>
            c == Bearer(Some(ADMIN)) || (r.verb == GET && Matches(AdminDocuments(), r.path))
  {
    hide GlobalRules, Matches, Grants, EntriesOf, ChainPermits;
    EntriesDecideAsRules(GlobalRules(), r.verb, r.path, c);
    AdminAreaDecision(a, r.verb, r.path);
    AnyRoleMeaning({ADMIN}, c);
    PermitAllIsOpen(c);
  }

  lemma PermitAllIsOpen(c: Caller)
    ensures Grants(PermitAll, c)
  {
  }
}

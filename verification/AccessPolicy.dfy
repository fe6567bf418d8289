/** Ordered access rules and the roles they ask for: what they decide, for every catalog. */
module AccessPolicy {
  import opened PathPatterns
  import opened Wrappers

  datatype UserRole = USER | ORGANIZER | ADMIN

  datatype Requirement = PermitAll | Authenticated | AnyRole(roles: set<UserRole>)

  /** A rule without a verb holds for every method. */
  datatype AccessRule =
    | Paths(id: string, verb: Option<Method>, paths: List<Pattern>, requirement: Requirement)
    | AnyExchange(id: string, requirement: Requirement)

  predicate Applies(r: AccessRule, m: Method, path: seq<Segment>) {
    r.AnyExchange? || ((r.verb.None? || r.verb.value == m) && AnyMatches(r.paths, path))
  }

  /** The first rule that applies decides. */
  function Decide(rules: List<AccessRule>, m: Method, path: seq<Segment>): Option<Requirement> {
    match rules
    case Nil => None
    case Cons(r, rest) => if Applies(r, m, path) then Some(r.requirement) else Decide(rest, m, path)
  }

  // ----- Roles -----

  function RoleName(r: UserRole): string {
    match r
    case USER => "USER"
    case ORGANIZER => "ORGANIZER"
    case ADMIN => "ADMIN"
  }

  function GrantedAuthorities(r: UserRole): seq<string> {
    match r
    case USER => ["ROLE_USER"]
    case ORGANIZER => ["ROLE_ORGANIZER", "ROLE_USER"]
    case ADMIN => ["ROLE_ADMIN", "ROLE_ORGANIZER", "ROLE_USER"]
  }

  function RoleRank(r: UserRole): nat {
    match r
    case USER => 0
    case ORGANIZER => 1
    case ADMIN => 2
  }

  /** Nobody, or the bearer of a valid token whose claim names a role or none that is known. */
  datatype Caller = Anonymous | Bearer(role: Option<UserRole>)

  function Authorities(c: Caller): seq<string> {
    match c
    case Anonymous => []
    case Bearer(None) => ["ROLE_USER"]
    case Bearer(Some(role)) => GrantedAuthorities(role)
  }

  predicate Grants(requirement: Requirement, c: Caller) {
    match requirement
    case PermitAll => true
    case Authenticated => c.Bearer?
    case AnyRole(roles) => exists r :: r in roles && ("ROLE_" + RoleName(r)) in Authorities(c)
  }

  predicate Permits(rules: List<AccessRule>, m: Method, path: seq<Segment>, c: Caller) {
    Decide(rules, m, path).Some? && Grants(Decide(rules, m, path).value, c)
  }

  /** A role holds the authority of every role below it and of no other. */
  lemma AuthoritiesAreNested(r: UserRole, held: UserRole)
    ensures ("ROLE_" + RoleName(held)) in GrantedAuthorities(r) <==> RoleRank(held) <= RoleRank(r)
  {
    assert "ROLE_" + "USER" == "ROLE_USER";
    assert "ROLE_" + "ORGANIZER" == "ROLE_ORGANIZER";
    assert "ROLE_" + "ADMIN" == "ROLE_ADMIN";
    assert "ROLE_USER"[5] == 'U' && "ROLE_ORGANIZER"[5] == 'O' && "ROLE_ADMIN"[5] == 'A';
  }

  /** A requirement of roles admits exactly the bearers of at least its lowest role; a bearer
      without a known role counts as a user. */
  lemma AnyRoleMeaning(roles: set<UserRole>, c: Caller)
    ensures Grants(AnyRole(roles), c) <==>
            c.Bearer? && exists r :: r in roles && RoleRank(r) <= RoleRank(if c.role.Some? then c.role.value else USER)
  {
    if c.Bearer? {
      var role := if c.role.Some? then c.role.value else USER;
      assert Authorities(c) == GrantedAuthorities(role);
      forall r ensures ("ROLE_" + RoleName(r)) in Authorities(c) <==> RoleRank(r) <= RoleRank(role) {
        AuthoritiesAreNested(role, r);
      }
    }
  }

  // ----- Every catalog that is accepted -----

  function LastRule(rules: List<AccessRule>): AccessRule
    requires rules.Cons?
  {
    if rules.tail.Nil? then rules.head else LastRule(rules.tail)
  }

  function FallbackCount(rules: List<AccessRule>): nat {
    match rules
    case Nil => 0
    case Cons(r, rest) => (if r.AnyExchange? then 1 else 0) + FallbackCount(rest)
  }

  predicate HasRule(rules: List<AccessRule>, id: string) {
    rules.Cons? && (rules.head.id == id || HasRule(rules.tail, id))
  }

  predicate UniqueIds(rules: List<AccessRule>) {
    rules.Nil? || (!HasRule(rules.tail, rules.head.id) && UniqueIds(rules.tail))
  }

  /** The checks on the order of the rules and on their ids. */
  predicate Accepted(rules: List<AccessRule>) {
    && rules.Cons?
    && UniqueIds(rules)
    && FallbackCount(rules) == 1
    && LastRule(rules).AnyExchange?
    && LastRule(rules).requirement == Authenticated
  }

  lemma {:induction false} SomeRuleApplies(rules: List<AccessRule>, m: Method, path: seq<Segment>)
    requires rules.Cons? && LastRule(rules).AnyExchange?
    ensures Decide(rules, m, path).Some?
  {
    if rules.tail.Cons? {
      SomeRuleApplies(rules.tail, m, path);
    }
  }

  lemma {:induction false} LastJoins(a: List<AccessRule>, b: List<AccessRule>)
    requires b.Cons?
    ensures Append(a, b).Cons? && LastRule(Append(a, b)) == LastRule(b)
  {
    match a
    case Nil =>
    case Cons(_, rest) => LastJoins(rest, b);
  }

  /** A catalog that ends in a rule for any exchange decides every request, and what a role may do
      every higher role may do; what is open to anonymous callers is open to all. */
  lemma ClosedCatalogsAreTotalAndMonotone(rules: List<AccessRule>, m: Method, path: seq<Segment>)
    requires rules.Cons? && LastRule(rules).AnyExchange?
    ensures Decide(rules, m, path).Some?
    ensures forall low, high | RoleRank(low) <= RoleRank(high) ::
              Permits(rules, m, path, Bearer(Some(low))) ==> Permits(rules, m, path, Bearer(Some(high)))
    ensures Permits(rules, m, path, Bearer(None)) <==> Permits(rules, m, path, Bearer(Some(USER)))
    ensures Permits(rules, m, path, Anonymous) ==> forall c :: Permits(rules, m, path, c)
  {
    SomeRuleApplies(rules, m, path);
    var requirement := Decide(rules, m, path).value;
    if requirement.AnyRole? {
      forall c ensures Grants(requirement, c) <==>
            && c.Bearer?
            && exists r ::
                 r in requirement.roles && RoleRank(r) <= RoleRank(if c.role.Some? then c.role.value else USER)
      {
        AnyRoleMeaning(requirement.roles, c);
      }
    }
    hide Grants;
  }

  predicate NamedByNoRule(rules: List<AccessRule>, m: Method, path: seq<Segment>) {
    match rules
    case Nil => true
    case Cons(r, rest) => (r.AnyExchange? || !Applies(r, m, path)) && NamedByNoRule(rest, m, path)
  }

  lemma {:induction false} FallbackDecides(rules: List<AccessRule>, m: Method, path: seq<Segment>)
    requires rules.Cons? && FallbackCount(rules) == 1 && LastRule(rules).AnyExchange?
    requires NamedByNoRule(rules, m, path)
    ensures Decide(rules, m, path) == Some(LastRule(rules).requirement)
  {
    if rules.tail.Cons? {
      LastCounts(rules.tail);
      FallbackDecides(rules.tail, m, path);
    }
  }

  lemma {:induction false} LastCounts(rules: List<AccessRule>)
    requires rules.Cons? && LastRule(rules).AnyExchange?
    ensures FallbackCount(rules) >= 1
  {
    if rules.tail.Cons? {
      LastCounts(rules.tail);
    }
  }

  /** In an accepted catalog, what no rule names is open to exactly the bearers of a token. */
  lemma UnnamedNeedsAuthentication(rules: List<AccessRule>, m: Method, path: seq<Segment>, c: Caller)
    requires Accepted(rules) && NamedByNoRule(rules, m, path)
    ensures Permits(rules, m, path, c) <==> c.Bearer?
  {
    FallbackDecides(rules, m, path);
  }

  // ----- Deciding a catalog for a whole pattern of requests -----

  datatype Scope = AnyMethod | AnyButOptions

  predicate InScope(m: Method, scope: Scope) {
    scope.AnyButOptions? ==> m != OPTIONS
  }

  /** The rule applies to no request of the scope and the pattern. */
  predicate Rejects(r: AccessRule, scope: Scope, q: Pattern) {
    && r.Paths?
    && ((scope.AnyButOptions? && r.verb == Some(OPTIONS)) || !AnyOverlaps(r.paths, q))
  }

  /** The rule applies to every request of the pattern. */
  predicate Takes(r: AccessRule, q: Pattern) {
    r.AnyExchange? || (r.verb.None? && AnyCovers(r.paths, q))
  }

  predicate AllReject(rules: List<AccessRule>, scope: Scope, q: Pattern) {
    rules.Nil? || (Rejects(rules.head, scope, q) && AllReject(rules.tail, scope, q))
  }

  /** Whatever the request of the pattern, the first rule that applies has this requirement. */
  predicate Demands(rules: List<AccessRule>, scope: Scope, q: Pattern, requirement: Requirement)
    decreases rules
  {
    && rules.Cons?
    && (if rules.head.requirement == requirement
        then Takes(rules.head, q) || Demands(rules.tail, scope, q, requirement)
        else Rejects(rules.head, scope, q) && Demands(rules.tail, scope, q, requirement))
  }

  lemma {:induction false} RejectingRulesAreSkipped(rules: List<AccessRule>, more: List<AccessRule>, scope: Scope,
                                                    q: Pattern,
                                                    m: Method, path: seq<Segment>)
    requires InScope(m, scope) && Matches(q, path) && AllReject(rules, scope, q)
    ensures Decide(Append(rules, more), m, path) == Decide(more, m, path)
  {
    match rules
    case Nil =>
    case Cons(r, rest) =>
      RejectingRulesAreSkipped(rest, more, scope, q, m, path);
      PatternsDecide(r.paths, q, path);
  }

  lemma {:induction false} DemandsDecide(rules: List<AccessRule>, more: List<AccessRule>, scope: Scope, q: Pattern,
                                         requirement: Requirement, m: Method, path: seq<Segment>)
    requires InScope(m, scope) && Matches(q, path) && Demands(rules, scope, q, requirement)
    ensures Decide(Append(rules, more), m, path) == Some(requirement)
  {
    var Cons(r, rest) := rules;
    if r.Paths? {
      PatternsDecide(r.paths, q, path);
    }
    if !(r.requirement == requirement && Takes(r, q)) {
      DemandsDecide(rest, more, scope, q, requirement, m, path);
    }
  }

  lemma {:induction false} DecideJoins(a: List<AccessRule>, b: List<AccessRule>, m: Method, path: seq<Segment>)
    ensures Decide(Append(a, b), m, path) == if Decide(a, m, path).Some? then Decide(a, m, path) else Decide(b, m, path)
  {
    match a
    case Nil =>
    case Cons(_, rest) => DecideJoins(rest, b, m, path);
  }

  /** A guard behind one rule that may apply: with other rules in front and between that stay out of
      the pattern, the rule decides where it applies, and the guard everywhere else. */
  lemma GuardedDecision(front: List<AccessRule>, r: AccessRule, between: List<AccessRule>, guard: List<AccessRule>,
                        later: List<AccessRule>, scope: Scope, q: Pattern, requirement: Requirement, m: Method,
                            path: seq<Segment>)
    requires InScope(m, scope) && Matches(q, path)
    requires AllReject(front, scope, q) && AllReject(between, scope, q) && Demands(guard, scope, q, requirement)
    ensures Decide(Append(front, Cons(r, Append(between, Append(guard, later)))), m, path) ==
            Some(if Applies(r, m, path) then r.requirement else requirement)
  {
    var guarded := Append(guard, later);
    RejectingRulesAreSkipped(front, Cons(r, Append(between, guarded)), scope, q, m, path);
    RejectingRulesAreSkipped(between, guarded, scope, q, m, path);
    DemandsDecide(guard, later, scope, q, requirement, m, path);
  }

  // ----- Deleting a rule -----

  function Length(rules: List<AccessRule>): nat {
    match rules
    case Nil => 0
    case Cons(_, rest) => 1 + Length(rest)
  }

  function RuleAt(rules: List<AccessRule>, i: nat): AccessRule
    requires i < Length(rules)
  {
    if i == 0 then rules.head else RuleAt(rules.tail, i - 1)
  }

  function WithoutAt(rules: List<AccessRule>, i: nat): List<AccessRule>
    requires i < Length(rules)
  {
    if i == 0 then rules.tail else Cons(rules.head, WithoutAt(rules.tail, i - 1))
  }

  function Ids(rules: List<AccessRule>): set<string> {
    match rules
    case Nil => {}
    case Cons(r, rest) => {r.id} + Ids(rest)
  }

  /** The ids are unique exactly if there are as many as rules. */
  lemma {:induction false} UniqueMeaning(rules: List<AccessRule>)
    ensures |Ids(rules)| <= Length(rules)
    ensures UniqueIds(rules) <==> |Ids(rules)| == Length(rules)
  {
    if rules.Cons? {
      UniqueMeaning(rules.tail);
      HasRuleMeaning(rules.tail, rules.head.id);
    }
  }

  lemma {:induction false} HasRuleMeaning(rules: List<AccessRule>, id: string)
    ensures HasRule(rules, id) <==> id in Ids(rules)
  {
    if rules.Cons? { HasRuleMeaning(rules.tail, id); }
  }

  function RuleSet(rules: List<AccessRule>): set<AccessRule> {
    match rules
    case Nil => {}
    case Cons(r, rest) => {r} + RuleSet(rest)
  }

  /** No rule names a request if none applies to it but the one for any exchange. */
  lemma {:induction false} NamedMeaning(rules: List<AccessRule>, m: Method, path: seq<Segment>)
    ensures NamedByNoRule(rules, m, path) <==>
            forall r | r in RuleSet(rules) :: r.AnyExchange? || !Applies(r, m, path)
  {
    hide Applies;
    if rules.Cons? { NamedMeaning(rules.tail, m, path); }
  }

  lemma {:induction false} AtJoins(a: List<AccessRule>, b: List<AccessRule>, i: nat)
    requires i < Length(b)
    ensures Length(Append(a, b)) == Length(a) + Length(b)
    ensures RuleAt(Append(a, b), Length(a) + i) == RuleAt(b, i)
    ensures WithoutAt(Append(a, b), Length(a) + i) == Append(a, WithoutAt(b, i))
  {
    match a
    case Nil =>
    case Cons(_, rest) => AtJoins(rest, b, i);
  }

  lemma {:induction false} AtInFront(a: List<AccessRule>, b: List<AccessRule>, i: nat)
    requires i < Length(a)
    ensures i < Length(Append(a, b))
    ensures RuleAt(Append(a, b), i) == RuleAt(a, i)
    ensures WithoutAt(Append(a, b), i) == Append(WithoutAt(a, i), b)
  {
    if i > 0 { AtInFront(a.tail, b, i - 1); }
  }

  lemma {:induction false} IdleRuleIsNotMissed(rules: List<AccessRule>, i: nat, m: Method, path: seq<Segment>)
    requires i < Length(rules) && !Applies(RuleAt(rules, i), m, path)
    ensures Decide(WithoutAt(rules, i), m, path) == Decide(rules, m, path)
  {
    if i > 0 { IdleRuleIsNotMissed(rules.tail, i - 1, m, path); }
  }

  /** A rule can go if the rules around it demand what it demands wherever it applies. */
  lemma CoveredRuleCanGo(rules: List<AccessRule>, i: nat, later: List<AccessRule>, scope: Scope, q: Pattern,
                         requirement: Requirement, m: Method, path: seq<Segment>)
    requires i < Length(rules) && InScope(m, scope)
    requires Demands(rules, scope, q, requirement) && Demands(WithoutAt(rules, i), scope, q, requirement)
    requires Applies(RuleAt(rules, i), m, path) ==> Matches(q, path)
    ensures i < Length(Append(rules, later))
    ensures Decide(WithoutAt(Append(rules, later), i), m, path) == Decide(Append(rules, later), m, path)
  {
    AtInFront(rules, later, i);
    if Applies(RuleAt(rules, i), m, path) {
      DemandsDecide(rules, later, scope, q, requirement, m, path);
      DemandsDecide(WithoutAt(rules, i), later, scope, q, requirement, m, path);
    } else {
      IdleRuleIsNotMissed(Append(rules, later), i, m, path);
    }
  }

  // ----- The admin areas -----

  datatype Area = V1Admin | V2Admin | AuthAdmin | PostCourses | OnlineJudgeAdmin

  function Everything(a: Area): Pattern {
    match a
    case V1Admin => Lit(V1, Lit(Admin, Deep))
    case V2Admin => Lit(V2, Lit(Admin, Deep))
    case AuthAdmin => Lit(V2, Lit(Auth, Lit(Admin, Deep)))
    case PostCourses => Lit(V2, Lit(Post, Lit(Admin, Lit(Courses, Deep))))
    case OnlineJudgeAdmin => Lit(V2, Lit(OnlineJudge, Lit(Admin, Deep)))
  }

  /** The rule applies to nothing below an admin area, apart from preflight requests. */
  predicate KeepsOut(r: AccessRule) {
    forall a :: Rejects(r, AnyButOptions, Everything(a))
  }
}

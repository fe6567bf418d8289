/** Registering the catalog on the exchange builder of the security chain.

    What is assumed of the framework: a matcher must be given its access before the next one is
    registered, nothing may follow the matcher for any exchange, and the first entry that matches a
    request decides; a request without one is denied. */
module SecurityChain {
  import opened AccessPolicy
  import opened PathPatterns
  import opened Wrappers

  datatype Matcher = PathMatcher(verb: Option<Method>, paths: List<Pattern>) | AnyMatcher

  datatype Manager = Open | Authorized | HasAnyAuthority(authorities: set<string>)

  datatype Entry = Entry(matcher: Matcher, manager: Manager)

  predicate Fits(matcher: Matcher, m: Method, path: seq<Segment>) {
    matcher.AnyMatcher? || ((matcher.verb.None? || matcher.verb.value == m) && AnyMatches(matcher.paths, path))
  }

  predicate Admits(manager: Manager, c: Caller) {
    match manager
    case Open => true
    case Authorized => c.Bearer?
    case HasAnyAuthority(authorities) => exists a :: a in authorities && a in Authorities(c)
  }

  predicate ChainPermits(entries: seq<Entry>, m: Method, path: seq<Segment>, c: Caller) {
    && entries != []
    && (if Fits(entries[0].matcher, m, path) then Admits(entries[0].manager, c)
        else ChainPermits(entries[1..], m, path, c))
  }

  function MatcherOf(r: AccessRule): Matcher {
    match r
    case AnyExchange(_, _) => AnyMatcher
    case Paths(_, verb, paths, _) => PathMatcher(verb, paths)
  }

  function ManagerOf(requirement: Requirement): Manager {
    match requirement
    case PermitAll => Open
    case Authenticated => Authorized
    case AnyRole(roles) => HasAnyAuthority(set r | r in roles :: "ROLE_" + RoleName(r))
  }

  function EntriesOf(rules: List<AccessRule>): seq<Entry> {
    match rules
    case Nil => []
    case Cons(r, rest) => [Entry(MatcherOf(r), ManagerOf(r.requirement))] + EntriesOf(rest)
  }

  lemma {:induction false} EntriesDecideAsRules(rules: List<AccessRule>, m: Method, path: seq<Segment>, c: Caller)
    ensures ChainPermits(EntriesOf(rules), m, path, c) <==> Permits(rules, m, path, c)
  {
    match rules
    case Nil =>
    case Cons(r, rest) =>
      EntriesDecideAsRules(rest, m, path, c);
      assert EntriesOf(rules)[1..] == EntriesOf(rest);
      ManagerAdmitsAsRequired(r.requirement, c);
  }

  lemma ManagerAdmitsAsRequired(requirement: Requirement, c: Caller)
    ensures Admits(ManagerOf(requirement), c) <==> Grants(requirement, c)
  {
    if requirement.AnyRole? {
      var authorities := ManagerOf(requirement).authorities;
      assert forall r | r in requirement.roles :: ("ROLE_" + RoleName(r)) in authorities;
    }
  }

  class AuthorizeExchangeSpec {
    var entries: seq<Entry>
    var pending: Option<Matcher>
    var anyExchangeRegistered: bool

    constructor ()
      ensures entries == [] && pending == None && !anyExchangeRegistered
    {
      entries, pending, anyExchangeRegistered := [], None, false;
    }

    method PathMatchers(verb: Option<Method>, paths: List<Pattern>)
      requires !anyExchangeRegistered && pending.None?
      modifies this
      ensures pending == Some(PathMatcher(verb, paths))
      ensures entries == old(entries) && !anyExchangeRegistered
    {
      pending := Some(PathMatcher(verb, paths));
    }

    method AnyExchange()
      requires !anyExchangeRegistered && pending.None?
      modifies this
      ensures pending == Some(AnyMatcher)
      ensures entries == old(entries) && anyExchangeRegistered
    {
      pending, anyExchangeRegistered := Some(AnyMatcher), true;
    }

    method Access(manager: Manager)
      requires pending.Some?
      modifies this
      ensures entries == old(entries) + [Entry(old(pending.value), manager)]
      ensures pending == None && anyExchangeRegistered == old(anyExchangeRegistered)
    {
      entries, pending := entries + [Entry(pending.value, manager)], None;
    }

    /** The loop of the configuration. An accepted catalog never registers a matcher after the one
        for any exchange, and the chain it builds permits exactly what the catalog permits. */
    method Register(rules: List<AccessRule>)
      requires Accepted(rules)
      requires entries == [] && pending.None? && !anyExchangeRegistered
      modifies this
      ensures entries == EntriesOf(rules) && pending.None? && anyExchangeRegistered
      ensures forall m, path, c :: ChainPermits(entries, m, path, c) <==> Permits(rules, m, path, c)
    {
      var rest := rules;
      while rest.Cons?
        invariant entries + EntriesOf(rest) == EntriesOf(rules) && pending.None?
        invariant rest.Cons? ==> FallbackCount(rest) == 1 && LastRule(rest).AnyExchange? && !anyExchangeRegistered
        invariant rest.Nil? ==> anyExchangeRegistered
        decreases rest
      {
        var rule := rest.head;
        if rest.tail.Cons? { LastCounts(rest.tail); }
        match rule {
          case AnyExchange(_, _) => AnyExchange();
          case Paths(_, verb, paths, _) => PathMatchers(verb, paths);
        }
        match rule.requirement {
          case PermitAll => Access(Open);
          case Authenticated => Access(Authorized);
          case AnyRole(roles) => Access(HasAnyAuthority(set r | r in roles :: "ROLE_" + RoleName(r)));
        }
        rest := rest.tail;
      }
      assert EntriesOf(rest) == [] && entries + [] == entries;
      forall m, path, c ensures ChainPermits(entries, m, path, c) <==> Permits(rules, m, path, c) {
        EntriesDecideAsRules(rules, m, path, c);
      }
    }
  }
}

/** The token context cache over Redis: cached payloads, and for each subject an index of its keys.

    A cell of the store is there until its time comes; adding to a set that is not there creates one
    without a time, and setting the time of a cell that is not there does nothing. The digest is a
    function whose results all have the length of a hexadecimal SHA-256. */
module TokenCache {
  import opened Clock
  import opened Wrappers

  // ----- Keys -----

  datatype Authentication = Jwt(subject: Option<string>, token: string) | Principal(name: string)

  ghost predicate IsDigest(sha: string -> string) {
    forall text :: |sha(text)| == 64
  }

  function SubjectOf(a: Authentication): string {
    match a
    case Jwt(subject, _) => if subject.Some? then subject.value else "unknown"
    case Principal(name) => name
  }

  function TokenKey(sha: string -> string, subject: string, token: string): string {
    "cache:token:" + subject + ":" + sha(token)
  }

  function PrincipalKey(sha: string -> string, name: string): string {
    "cache:token:" + sha(name)
  }

  function IndexKey(subject: string): string {
    "cache:token-index:" + subject
  }

  function KeyOf(sha: string -> string, a: Authentication): string {
    if a.Jwt? then TokenKey(sha, SubjectOf(a), a.token) else PrincipalKey(sha, a.name)
  }

  lemma IndexKeysAreApart(sha: string -> string, a: Authentication, subject: string)
    ensures KeyOf(sha, a) != IndexKey(subject)
  {
    assert KeyOf(sha, a)[11] == ':' && IndexKey(subject)[11] == '-';
  }

  lemma IndexKeysAgree(s: string, t: string)
    ensures IndexKey(s) == IndexKey(t) <==> s == t
  {
    assert IndexKey(s)[18..] == s && IndexKey(t)[18..] == t;
  }

  /** A key names its subject, colons or not, unless it is the key of two principals whose names
      have the same digest. */
  lemma KeysNameTheirSubject(sha: string -> string, a: Authentication, b: Authentication)
    requires IsDigest(sha) && KeyOf(sha, a) == KeyOf(sha, b)
    ensures SubjectOf(a) == SubjectOf(b) || (a.Principal? && b.Principal? && sha(a.name) == sha(b.name))
    ensures a.Jwt? <==> b.Jwt?
    ensures a.Jwt? && b.Jwt? ==> sha(a.token) == sha(b.token)
  {
    var k := KeyOf(sha, a);
    assert a.Jwt? ==> |k| == 77 + |SubjectOf(a)| && k[12..|k| - 65] == SubjectOf(a) && k[|k| - 64..] == sha(a.token);
    assert b.Jwt? ==> |k| == 77 + |SubjectOf(b)| && k[12..|k| - 65] == SubjectOf(b) && k[|k| - 64..] == sha(b.token);
    assert a.Principal? ==> |k| == 76 && k[12..] == sha(a.name);
    assert b.Principal? ==> |k| == 76 && k[12..] == sha(b.name);
  }

  /** A token without a subject is cached for the subject "unknown", and for no other. */
  lemma NamelessTokens(sha: string -> string, token: string, subject: string)
    requires IsDigest(sha)
    ensures KeyOf(sha, Jwt(None, token)) == KeyOf(sha, Jwt(Some(subject), token)) <==> subject == "unknown"
  {
    if KeyOf(sha, Jwt(None, token)) == KeyOf(sha, Jwt(Some(subject), token)) {
      KeysNameTheirSubject(sha, Jwt(None, token), Jwt(Some(subject), token));
    }
  }

  // ----- The store -----

  datatype Cell = Payload(json: string, until: Instant) | Index(keys: set<string>, expiry: Option<Instant>)

  predicate LiveAt(c: Cell, now: Instant) {
    match c
    case Payload(_, until) => now < until
    case Index(_, expiry) => expiry.None? || now < expiry.value
  }

  type Store = map<string, Cell>

  predicate Live(store: Store, key: string, now: Instant) {
    key in store && LiveAt(store[key], now)
  }

  function AddMember(store: Store, index: string, key: string, now: Instant): Store {
    if Live(store, index, now) && store[index].Index?
    then store[index := Index(store[index].keys + {key}, store[index].expiry)]
    else store[index := Index({key}, None)]
  }

  function Expire(store: Store, index: string, now: Instant, ttl: nat): Store {
    if Live(store, index, now) && store[index].Index?
    then store[index := Index(store[index].keys, Some(now + ttl))]
    else store
  }

  // ----- When the index and the payloads agree -----

  /** The live index of the subject holds the key and stays at least until then. */
  predicate Indexed(store: Store, subject: string, key: string, until: Instant, now: Instant) {
    var index := IndexKey(subject);
    && Live(store, index, now) && store[index].Index?
    && key in store[index].keys
    && (store[index].expiry.Some? ==> until <= store[index].expiry.value)
  }

  /** Every live payload is indexed under the subject of the authentication that wrote it. */
  ghost predicate AllIndexed(store: Store, writers: map<string, Authentication>, now: Instant) {
    forall key | key in store && store[key].Payload? && now < store[key].until ::
      key in writers && Indexed(store, SubjectOf(writers[key]), key, store[key].until, now)
  }

  /** Writers are filed under their keys, indexes are sets, and hold keys of their own subject only. */
  ghost predicate WellFiled(sha: string -> string, store: Store, writers: map<string, Authentication>) {
    && (forall key | key in writers :: KeyOf(sha, writers[key]) == key)
    && (forall subject | IndexKey(subject) in store :: store[IndexKey(subject)].Index?)
    && (forall subject, key | IndexKey(subject) in store && store[IndexKey(subject)].Index?
        && key in store[IndexKey(subject)].keys ::
          key in writers && SubjectOf(writers[key]) == subject)
  }

  ghost predicate Consistent(sha: string -> string, ttl: nat, store: Store, writers: map<string, Authentication>,
                             now: Instant) {
    && AllIndexed(store, writers, now)
    && (forall key | key in store && store[key].Payload? :: store[key].until <= now + ttl)
    && WellFiled(sha, store, writers)
  }

  lemma TimeKeepsConsistency(sha: string -> string, ttl: nat, store: Store, writers: map<string,
      Authentication>, now: Instant, later: Instant)
    requires Consistent(sha, ttl, store, writers, now) && now <= later
    ensures Consistent(sha, ttl, store, writers, later)
  {
  }

  /** The key was not written for another subject, as by a principal whose name has the same digest. */
  predicate KeyIsTheSubjects(sha: string -> string, writers: map<string, Authentication>, a: Authentication) {
    KeyOf(sha, a) in writers ==> SubjectOf(writers[KeyOf(sha, a)]) == SubjectOf(a)
  }

  // ----- Storing after a miss -----

  /** Which command of a resolve fails, if one does; the ones after it are not sent. */
  datatype Fault = NoFault | AtGet | AtPut | AtAdd | AtExpire

  /** The times at which the payload is set, the key added to the index, and the index renewed. */
  datatype Times = Times(put: Instant, add: Instant, renew: Instant) {
    predicate Ordered() {
      put <= add <= renew
    }
  }

  function Stored(store: Store, index: string, key: string, json: string, ttl: nat, t: Times, fault: Fault): Store {
    var withPayload := store[key := Payload(json, t.put + ttl)];
    if fault == AtAdd then withPayload
    else
      var withMember := AddMember(withPayload, index, key, t.add);
      if fault == AtExpire then withMember else Expire(withMember, index, t.renew, ttl)
  }

  lemma StoredInSteps(store: Store, index: string, key: string, json: string, ttl: nat, t: Times, fault: Fault)
    ensures var withPayload := store[key := Payload(json, t.put + ttl)];
            Stored(store, index, key, json, ttl, t, fault) ==
            if fault == AtAdd then withPayload
            else if fault == AtExpire then AddMember(withPayload, index, key, t.add)
            else Expire(AddMember(withPayload, index, key, t.add), index, t.renew, ttl)
  {
    hide AddMember, Expire;
  }

  /** What must hold before the payload is set. Without a fault, only an index that expires between
      the last two commands does harm. */
  predicate StoringIsSafe(store: Store, index: string, key: string, ttl: nat, t: Times, fault: Fault) {
    var until := t.put + ttl;
    || until <= t.renew
    || (match fault
        case AtAdd => && Live(store, index, t.renew) && store[index].Index? && key in store[index].keys
                      && (store[index].expiry.Some? ==> until <= store[index].expiry.value)
        case AtExpire => && (Live(store, index, t.add) && store[index].Index? && store[index].expiry.Some? ==>
                               until <= store[index].expiry.value)
        case _ => !(Live(store, index, t.add) && store[index].Index? && !Live(store, index, t.renew)))
  }

  /** What storing does to a store, cell by cell. */
  lemma StoredCells(store: Store, index: string, key: string, json: string, ttl: nat, t: Times, fault: Fault)
    requires key != index && t.Ordered() && fault in {NoFault, AtAdd, AtExpire}
    requires index in store ==> store[index].Index?
    ensures var after := Stored(store, index, key, json, ttl, t, fault);
            && key in after && after[key] == Payload(json, t.put + ttl)
            && (forall other | other != key && other != index :: other in after <==> other in store)
            && (forall other | other != key && other != index && other in store :: after[other] == store[other])
            && (fault == AtAdd ==>
                  (index in after <==> index in store) && (index in store ==> after[index] == store[index]))
            && (fault != AtAdd ==> && index in after && after[index].Index?
                                   && after[index].keys == (if Live(store, index, t.add) then store[index].keys
                                                            else {}) + {key})
            && (fault == AtExpire ==> after[index].expiry == if Live(store, index, t.add) then store[index].expiry
                else None)
            && (fault == NoFault ==>
                  after[index].expiry == if Live(store, index, t.add) && !Live(store, index, t.renew)
                      then store[index].expiry
                                         else Some(t.renew + ttl))
  {
  }

  lemma StoredKeyIsIndexed(store: Store, subject: string, key: string, json: string, ttl: nat, t: Times, fault: Fault)
    requires key != IndexKey(subject) && t.Ordered() && fault in {NoFault, AtAdd, AtExpire}
    requires IndexKey(subject) in store ==> store[IndexKey(subject)].Index?
    ensures var after := Stored(store, IndexKey(subject), key, json, ttl, t, fault);
            (t.renew < t.put + ttl ==> Indexed(after, subject, key, t.put + ttl, t.renew)) <==>
            StoringIsSafe(store, IndexKey(subject), key, ttl, t, fault)
  {
    hide IndexKey, Stored;
    StoredCells(store, IndexKey(subject), key, json, ttl, t, fault);
  }

  lemma OtherKeyStaysIndexed(store: Store, index: string, key: string, json: string, ttl: nat, t: Times, fault: Fault,
                             subject: string, other: string)
    requires key != index && key != IndexKey(subject) && other != key && t.Ordered()
               && fault in {NoFault, AtAdd, AtExpire}
    requires index in store ==> store[index].Index?
    requires other in store && store[other].Payload? && t.renew < store[other].until <= t.put + ttl
    requires Indexed(store, subject, other, store[other].until, t.put)
    ensures Indexed(Stored(store, index, key, json, ttl, t, fault), subject, other, store[other].until, t.renew)
  {
    hide IndexKey, Stored;
    StoredCells(store, index, key, json, ttl, t, fault);
  }

  lemma StoringFilesWell(sha: string -> string, store: Store, writers: map<string, Authentication>,
                         a: Authentication, json: string, ttl: nat, t: Times, fault: Fault)
    requires WellFiled(sha, store, writers) && t.Ordered() && fault in {NoFault, AtAdd, AtExpire}
    requires KeyIsTheSubjects(sha, writers, a)
    ensures WellFiled(sha, Stored(store, IndexKey(SubjectOf(a)), KeyOf(sha, a), json, ttl, t, fault),
                      writers[KeyOf(sha, a) := a])
  {
    forall s ensures IndexKey(s) != KeyOf(sha, a) && (IndexKey(s) == IndexKey(SubjectOf(a)) <==> s == SubjectOf(a)) {
      IndexKeysAreApart(sha, a, s);
      IndexKeysAgree(s, SubjectOf(a));
    }
    hide IndexKey, KeyOf, SubjectOf, Stored;
    StoredCells(store, IndexKey(SubjectOf(a)), KeyOf(sha, a), json, ttl, t, fault);
  }

  /** Storing keeps the index and the payloads in agreement exactly when it is safe. */
  lemma StoringKeepsConsistency(sha: string -> string, ttl: nat, store: Store, writers: map<string, Authentication>,
                                a: Authentication, json: string, t: Times, fault: Fault)
    requires Consistent(sha, ttl, store, writers, t.put) && t.Ordered() && fault in {NoFault, AtAdd, AtExpire}
    requires KeyIsTheSubjects(sha, writers, a)
    ensures var key, index := KeyOf(sha, a), IndexKey(SubjectOf(a));
            Consistent(sha, ttl, Stored(store, index, key, json, ttl, t, fault), writers[key := a], t.renew) <==>
            StoringIsSafe(store, index, key, ttl, t, fault)
  {
    var key, index := KeyOf(sha, a), IndexKey(SubjectOf(a));
    var after := Stored(store, index, key, json, ttl, t, fault);
    StoringFilesWell(sha, store, writers, a, json, ttl, t, fault);
    forall s ensures IndexKey(s) != key {
      IndexKeysAreApart(sha, a, s);
    }
    assert IndexKey(SubjectOf(a)) in store ==> store[IndexKey(SubjectOf(a))].Index?;
    hide IndexKey, KeyOf, SubjectOf, Stored, Indexed, StoringIsSafe, WellFiled;
    StoredCells(store, index, key, json, ttl, t, fault);
    StoredKeyIsIndexed(store, SubjectOf(a), key, json, ttl, t, fault);
    forall other | other in after && after[other].Payload? && t.renew < after[other].until && other != key
      ensures other in writers && Indexed(after, SubjectOf(writers[other]), other, after[other].until, t.renew)
    {
      OtherKeyStaysIndexed(store, index, key, json, ttl, t, fault, SubjectOf(writers[other]), other);
    }
  }

  /** With no time passing between the commands, and no fault, storing is always safe. */
  lemma AtOnceIsSafe(store: Store, index: string, key: string, ttl: nat, now: Instant)
    ensures StoringIsSafe(store, index, key, ttl, Times(now, now, now), NoFault)
  {
  }

  /** An index of an earlier, expired payload that runs out just before it is renewed: the new
      payload is alive and in no index, so no eviction finds it. */
  lemma IndexMayExpireUnderfoot(sha: string -> string, a: Authentication, json: string)
    ensures var key, index := KeyOf(sha, a), IndexKey(SubjectOf(a));
            var store, t := map[index := Index({key}, Some(10))], Times(8, 9, 10);
            var after := Stored(store, index, key, json, 5, t, NoFault);
            && Consistent(sha, 5, store, map[key := a], 8)
            && !StoringIsSafe(store, index, key, 5, t, NoFault)
            && Live(after - Targets(after, SubjectOf(a), 10), key, 10)
  {
    forall s ensures IndexKey(s) != KeyOf(sha, a) && (IndexKey(s) == IndexKey(SubjectOf(a)) <==> s == SubjectOf(a)) {
      IndexKeysAreApart(sha, a, s);
      IndexKeysAgree(s, SubjectOf(a));
    }
  }

  // ----- Evicting a subject -----

  /** What an eviction deletes: the index, and the keys it held if it was there. */
  function Targets(store: Store, subject: string, now: Instant): set<string> {
    var index := IndexKey(subject);
    {index} + if Live(store, index, now) && store[index].Index? then store[index].keys else {}
  }

  /** Filing is all it takes for an eviction to leave what other subjects stored. */
  lemma EvictionFilesWell(sha: string -> string, store: Store, writers: map<string, Authentication>, subject: string,
                          now: Instant)
    requires WellFiled(sha, store, writers)
    ensures var after := store - Targets(store, subject, now);
            && WellFiled(sha, after, writers)
            && forall key | key in writers && SubjectOf(writers[key]) != subject ::
                 (key in after <==> key in store) && (key in after ==> after[key] == store[key])
  {
    forall key, s | key in writers ensures key != IndexKey(s) {
      IndexKeysAreApart(sha, writers[key], s);
    }
    hide IndexKey, KeyOf, SubjectOf;
  }

  lemma EvictionKeepsConsistency(sha: string -> string, ttl: nat, store: Store, writers: map<string,
      Authentication>, subject: string, now: Instant)
    requires Consistent(sha, ttl, store, writers, now)
    ensures Consistent(sha, ttl, store - Targets(store, subject, now), writers, now)
  {
    var after := store - Targets(store, subject, now);
    forall s ensures IndexKey(s) == IndexKey(subject) <==> s == subject {
      IndexKeysAgree(s, subject);
    }
    forall key, s | key in writers ensures key != IndexKey(s) {
      IndexKeysAreApart(sha, writers[key], s);
    }
    hide IndexKey, KeyOf, SubjectOf;
    forall key | key in after && after[key].Payload? && now < after[key].until
      ensures Indexed(after, SubjectOf(writers[key]), key, after[key].until, now)
    {
      var owner := SubjectOf(writers[key]);
      assert Indexed(store, owner, key, store[key].until, now);
      assert owner == subject ==> key in Targets(store, subject, now);
      assert IndexKey(owner) !in writers;
      assert IndexKey(owner) !in Targets(store, subject, now);
      assert after[IndexKey(owner)] == store[IndexKey(owner)];
    }
  }

  /** Eviction is complete and hits nobody else: no payload of the subject is left alive, and every
      live payload of another subject stays as it was. */
  lemma EvictionIsComplete(sha: string -> string, ttl: nat, store: Store, writers: map<string, Authentication>,
      subject: string, now: Instant)
    requires Consistent(sha, ttl, store, writers, now)
    ensures var after := store - Targets(store, subject, now);
            && (forall key | Live(after, key, now) && after[key].Payload? :: SubjectOf(writers[key]) != subject)
            && (forall key | Live(store, key, now) && store[key].Payload? && SubjectOf(writers[key]) != subject ::
                  key in after && after[key] == store[key])
  {
    forall key, s | key in writers ensures key != IndexKey(s) {
      IndexKeysAreApart(sha, writers[key], s);
    }
    hide IndexKey, KeyOf, SubjectOf;
    forall key | Live(store, key, now) && store[key].Payload?
        ensures Indexed(store, SubjectOf(writers[key]), key, store[key].until, now) {
    }
  }

  /** After its subject was evicted, an authentication misses, as long as nothing of the subject is
      stored again; a principal misses unless another name has the same digest. */
  lemma MissAfterEviction(sha: string -> string, ttl: nat, store: Store, writers: map<string, Authentication>,
                          a: Authentication, now: Instant, later: Instant)
    requires IsDigest(sha) && Consistent(sha, ttl, store, writers, now) && now <= later
    ensures var key := KeyOf(sha, a);
            var after := store - Targets(store, SubjectOf(a), now);
            Live(after, key, later) && after[key].Payload? ==>
                a.Principal? && writers[key].Principal? && writers[key].name != a.name
  {
    var key := KeyOf(sha, a);
    var after := store - Targets(store, SubjectOf(a), now);
    EvictionIsComplete(sha, ttl, store, writers, SubjectOf(a), now);
    IndexKeysAreApart(sha, a, SubjectOf(a));
    if Live(after, key, later) && after[key].Payload? {
      assert after[key] == store[key] && Live(after, key, now);
      KeysNameTheirSubject(sha, a, writers[key]);
    }
  }

  // ----- Runs of resolves and evictions -----

  /** The store, with the authentication that wrote each payload key last. */
  datatype Contents = Contents(store: Store, writers: map<string, Authentication>)

  datatype Command =
    | Resolving(a: Authentication, built: string, t: Times, fault: Fault)
    | Evicting(subject: string, now: Instant, fails: bool)
  {
    function Start(): Instant {
      match this
      case Resolving(_, _, t, _) => t.put
      case Evicting(_, now, _) => now
    }

    function End(): Instant {
      match this
      case Resolving(_, _, t, _) => t.renew
      case Evicting(_, now, _) => now
    }
  }

  predicate Hits(sha: string -> string, store: Store, a: Authentication, now: Instant, fault: Fault) {
    fault != AtGet && Live(store, KeyOf(sha, a), now) && store[KeyOf(sha, a)].Payload?
  }

  predicate Stores(sha: string -> string, store: Store, a: Authentication, now: Instant, fault: Fault) {
    !Hits(sha, store, a, now, fault) && fault != AtGet && fault != AtPut
  }

  function AfterResolve(sha: string -> string, ttl: nat, c: Contents, a: Authentication, built: string, t: Times,
                        fault: Fault):
    Contents
  {
    if Stores(sha, c.store, a, t.put, fault)
    then Contents(Stored(c.store, IndexKey(SubjectOf(a)), KeyOf(sha, a), built, ttl, t, fault),
               c.writers[KeyOf(sha, a) := a])
    else c
  }

  function AfterEviction(c: Contents, subject: string, now: Instant, fails: bool): Contents {
    if fails then c else c.(store := c.store - Targets(c.store, subject, now))
  }

  function AfterCommand(sha: string -> string, ttl: nat, c: Contents, command: Command): Contents {
    match command
    case Resolving(a, built, t, fault) => AfterResolve(sha, ttl, c, a, built, t, fault)
    case Evicting(subject, now, fails) => AfterEviction(c, subject, now, fails)
  }

  function AfterCommands(sha: string -> string, ttl: nat, c: Contents, commands: seq<Command>): Contents
    decreases |commands|
  {
    if commands == [] then c
    else AfterCommands(sha, ttl, AfterCommand(sha, ttl, c, commands[0]), commands[1..])
  }

  /** What a resolve needs for the index and the payloads to agree afterwards. */
  predicate SafeCommand(sha: string -> string, ttl: nat, c: Contents, command: Command) {
    match command
    case Evicting(_, _, _) => true
    case Resolving(a, _, t, fault) =>
      && KeyIsTheSubjects(sha, c.writers, a)
      && (Stores(sha, c.store, a, t.put, fault) ==>
            StoringIsSafe(c.store, IndexKey(SubjectOf(a)), KeyOf(sha, a), ttl, t, fault))
  }

  /** Each command is safe in the state it finds, and starts when the one before has ended. */
  predicate SafeRun(sha: string -> string, ttl: nat, c: Contents, commands: seq<Command>, from: Instant)
    decreases |commands|
  {
    commands == [] ||
      var command := commands[0];
      && from <= command.Start() && (command.Resolving? ==> command.t.Ordered())
      && SafeCommand(sha, ttl, c, command)
      && SafeRun(sha, ttl, AfterCommand(sha, ttl, c, command), commands[1..], command.End())
  }

  /** Runs are safe if no command fails, none of a resolve's commands is delayed, and principals of different
      subjects have names of different digests, whatever is evicted between and whether or not that fails. */
  lemma {:induction false} AtOnceRunsAreSafe(sha: string -> string, ttl: nat, c: Contents, commands: seq<Command>,
                                             from: Instant, who: set<Authentication>)
    requires forall key | key in c.writers :: c.writers[key] in who && KeyOf(sha, c.writers[key]) == key
    requires forall a, b | a in who && b in who && KeyOf(sha, a) == KeyOf(sha, b) :: SubjectOf(a) == SubjectOf(b)
    requires forall i | 0 <= i < |commands| :: commands[i].Resolving? ==>
                 commands[i].a in who && commands[i].fault == NoFault &&
                 commands[i].t == Times(commands[i].Start(), commands[i].Start(), commands[i].Start())
    requires forall i, j | 0 <= i <= j < |commands| :: from <= commands[i].Start() <= commands[j].Start()
    ensures SafeRun(sha, ttl, c, commands, from)
    decreases |commands|
  {
    hide KeyOf, SubjectOf, IndexKey, Stored, StoringIsSafe, Targets;
    if commands != [] {
      var command := commands[0];
      if command.Resolving? {
        AtOnceIsSafe(c.store, IndexKey(SubjectOf(command.a)), KeyOf(sha, command.a), ttl, command.Start());
      }
      AtOnceRunsAreSafe(sha, ttl, AfterCommand(sha, ttl, c, command), commands[1..], command.End(), who);
    }
  }

  function EndOf(commands: seq<Command>, from: Instant): Instant {
    if commands == [] then from else commands[|commands| - 1].End()
  }

  lemma CommandKeepsConsistency(sha: string -> string, ttl: nat, c: Contents, command: Command, from: Instant)
    requires Consistent(sha, ttl, c.store, c.writers, from) && from <= command.Start()
    requires (command.Resolving? ==> command.t.Ordered()) && SafeCommand(sha, ttl, c, command)
    ensures var after := AfterCommand(sha, ttl, c, command); Consistent(sha, ttl, after.store, after.writers,
              command.End())
  {
    TimeKeepsConsistency(sha, ttl, c.store, c.writers, from, command.Start());
    hide Stored, StoringIsSafe, KeyOf, IndexKey, SubjectOf, Targets;
    match command {
      case Resolving(a, built, t, fault) =>
        if Stores(sha, c.store, a, t.put, fault) {
          hide Consistent;
          StoringKeepsConsistency(sha, ttl, c.store, c.writers, a, built, t, fault);
        } else {
          TimeKeepsConsistency(sha, ttl, c.store, c.writers, t.put, t.renew);
        }
      case Evicting(subject, now, fails) =>
        if !fails { EvictionKeepsConsistency(sha, ttl, c.store, c.writers, subject, now); }
    }
  }

  /** Over any safe run the index and the payloads stay in agreement. */
  lemma {:induction false} RunsKeepConsistency(sha: string -> string, ttl: nat, c: Contents, commands: seq<Command>,
                                               from: Instant)
    requires Consistent(sha, ttl, c.store, c.writers, from) && SafeRun(sha, ttl, c, commands, from)
    ensures var after := AfterCommands(sha, ttl, c, commands);
            Consistent(sha, ttl, after.store, after.writers, EndOf(commands, from))
    decreases |commands|
  {
    hide Consistent, SafeCommand, AfterCommand;
    if commands != [] {
      CommandKeepsConsistency(sha, ttl, c, commands[0], from);
      RunsKeepConsistency(sha, ttl, AfterCommand(sha, ttl, c, commands[0]), commands[1..], commands[0].End());
      assert EndOf(commands[1..], commands[0].End()) == EndOf(commands, from);
    }
  }

  /** Nothing of the subject is cached. */
  predicate NothingCached(c: Contents, subject: string, now: Instant) {
    forall key | key in c.store && c.store[key].Payload? && now < c.store[key].until ::
      key in c.writers && SubjectOf(c.writers[key]) != subject
  }

  predicate ResolvesSubject(command: Command, subject: string) {
    command.Resolving? && SubjectOf(command.a) == subject
  }

  lemma OthersCacheOthers(sha: string -> string, ttl: nat, c: Contents, command: Command, subject: string,
                          from: Instant)
    requires NothingCached(c, subject, from) && from <= command.Start() <= command.End()
    requires !ResolvesSubject(command, subject) && (command.Resolving? ==> command.t.Ordered())
    requires WellFiled(sha, c.store, c.writers)
    ensures NothingCached(AfterCommand(sha, ttl, c, command), subject, command.End())
  {
    if command.Resolving? && Stores(sha, c.store, command.a, command.t.put, command.fault) {
      var key, index := KeyOf(sha, command.a), IndexKey(SubjectOf(command.a));
      IndexKeysAreApart(sha, command.a, SubjectOf(command.a));
      hide KeyOf, IndexKey, SubjectOf, Stored;
      StoredCells(c.store, index, key, command.built, ttl, command.t, command.fault);
    }
  }

  /** Over any safe run: after an eviction of a subject nothing of it is cached until it is resolved
      again, whatever else is resolved or evicted meanwhile. */
  lemma {:induction false} EvictedUntilResolved(sha: string -> string, ttl: nat, c: Contents, commands: seq<Command>,
                                                i: nat,
                                                subject: string, from: Instant)
    requires Consistent(sha, ttl, c.store, c.writers, from) && SafeRun(sha, ttl, c, commands, from)
    requires i < |commands| && commands[i] == Evicting(subject, commands[i].Start(), false)
    requires forall j | i < j < |commands| :: !ResolvesSubject(commands[j], subject)
    ensures NothingCached(AfterCommands(sha, ttl, c, commands), subject, EndOf(commands, from))
    decreases |commands|
  {
    hide Consistent, SafeCommand, AfterCommand, NothingCached, ResolvesSubject;
    var command, rest := commands[0], commands[1..];
    var after := AfterCommand(sha, ttl, c, command);
    CommandKeepsConsistency(sha, ttl, c, command, from);
    assert EndOf(rest, command.End()) == EndOf(commands, from);
    if i > 0 {
      EvictedUntilResolved(sha, ttl, after, rest, i - 1, subject, command.End());
    } else {
      JustEvicted(sha, ttl, c, subject, command.Start(), from);
      StaysUncached(sha, ttl, after, rest, subject, command.End());
    }
  }

  lemma JustEvicted(sha: string -> string, ttl: nat, c: Contents, subject: string, now: Instant, from: Instant)
    requires Consistent(sha, ttl, c.store, c.writers, from) && from <= now
    ensures NothingCached(AfterCommand(sha, ttl, c, Evicting(subject, now, false)), subject, now)
  {
    TimeKeepsConsistency(sha, ttl, c.store, c.writers, from, now);
    EvictionIsComplete(sha, ttl, c.store, c.writers, subject, now);
    hide Targets, SubjectOf, WellFiled, Indexed;
  }

  lemma {:induction false} StaysUncached(sha: string -> string, ttl: nat, c: Contents, commands: seq<Command>,
                                         subject: string,
                                         from: Instant)
    requires Consistent(sha, ttl, c.store, c.writers, from) && SafeRun(sha, ttl, c, commands, from)
    requires NothingCached(c, subject, from)
    requires forall j | 0 <= j < |commands| :: !ResolvesSubject(commands[j], subject)
    ensures NothingCached(AfterCommands(sha, ttl, c, commands), subject, EndOf(commands, from))
    decreases |commands|
  {
    hide SafeCommand, AfterCommand, NothingCached, ResolvesSubject, WellFiled, AllIndexed;
    if commands != [] {
      var command := commands[0];
      CommandKeepsConsistency(sha, ttl, c, command, from);
      OthersCacheOthers(sha, ttl, c, command, subject, from);
      StaysUncached(sha, ttl, AfterCommand(sha, ttl, c, command), commands[1..], subject, command.End());
      assert EndOf(commands[1..], command.End()) == EndOf(commands, from);
    }
  }

  // ----- What is served -----

  datatype Resolution = Resolution(payloadJson: string, cacheHit: bool)

  function AnswerOf(sha: string -> string, store: Store, a: Authentication, built: string, now: Instant, fault: Fault):
    Resolution
  {
    if Hits(sha, store, a, now, fault) then Resolution(store[KeyOf(sha, a)].json, true) else Resolution(built, false)
  }

  lemma PayloadStaysOnce(sha: string -> string, ttl: nat, c: Contents, command: Command, key: string, from: Instant)
    requires Consistent(sha, ttl, c.store, c.writers, from) && from <= command.Start()
    requires (command.Resolving? ==> command.t.Ordered()) && SafeCommand(sha, ttl, c, command)
    requires key in c.store && c.store[key].Payload? && command.End() < c.store[key].until
    requires command.Evicting? && !command.fails ==> key in c.writers && command.subject != SubjectOf(c.writers[key])
    ensures var after := AfterCommand(sha, ttl, c, command);
            && key in after.store && after.store[key] == c.store[key]
            && key in after.writers && after.writers[key] == c.writers[key]
  {
    assert from < c.store[key].until && key in c.writers;
    IndexKeysAreApart(sha, c.writers[key], if command.Evicting? then command.subject else SubjectOf(command.a));
    if command.Evicting? {
      hide KeyOf, IndexKey, SubjectOf;
    } else if Stores(sha, c.store, command.a, command.t.put, command.fault) {
      var own, index := KeyOf(sha, command.a), IndexKey(SubjectOf(command.a));
      IndexKeysAreApart(sha, command.a, SubjectOf(command.a));
      hide KeyOf, IndexKey, SubjectOf, Stored, AllIndexed, StoringIsSafe;
      StoredCells(c.store, index, own, command.built, ttl, command.t, command.fault);
    }
  }

  /** A payload that is alive stays as it is until it expires, or its subject is evicted. */
  lemma {:induction false} PayloadStays(sha: string -> string, ttl: nat, c: Contents, commands: seq<Command>,
                                        key: string, from: Instant)
    requires Consistent(sha, ttl, c.store, c.writers, from) && SafeRun(sha, ttl, c, commands, from)
    requires key in c.store && c.store[key].Payload? && EndOf(commands, from) < c.store[key].until
    requires key in c.writers && forall j | 0 <= j < |commands| ::
               commands[j].Evicting? && !commands[j].fails ==> commands[j].subject != SubjectOf(c.writers[key])
    decreases |commands|
    ensures var after := AfterCommands(sha, ttl, c, commands);
            key in after.store && after.store[key] == c.store[key]
    ensures from <= EndOf(commands, from)
  {
    hide Consistent, SafeCommand, AfterCommand;
    if commands != [] {
      var command, rest := commands[0], commands[1..];
      assert EndOf(rest, command.End()) == EndOf(commands, from);
      CommandKeepsConsistency(sha, ttl, c, command, from);
      RunEndsLater(sha, ttl, AfterCommand(sha, ttl, c, command), rest, command.End());
      PayloadStaysOnce(sha, ttl, c, command, key, from);
      PayloadStays(sha, ttl, AfterCommand(sha, ttl, c, command), rest, key, command.End());
    }
  }

  lemma {:induction false} RunEndsLater(sha: string -> string, ttl: nat, c: Contents, commands: seq<Command>,
                                        from: Instant)
    requires SafeRun(sha, ttl, c, commands, from)
    decreases |commands|
    ensures from <= EndOf(commands, from)
  {
    hide SafeCommand, AfterCommand;
    if commands != [] {
      RunEndsLater(sha, ttl, AfterCommand(sha, ttl, c, commands[0]), commands[1..], commands[0].End());
      assert EndOf(commands[1..], commands[0].End()) == EndOf(commands, from);
    }
  }

  /** The cache serves what it stored: over any safe run, a payload that was stored after a miss is the
      answer to every resolve under its key, as a hit, until it expires or its subject is evicted. */
  lemma ServedUntilExpiry(sha: string -> string, ttl: nat, c: Contents, a: Authentication, built: string, t: Times,
                          fault: Fault, commands: seq<Command>, from: Instant,
                          b: Authentication, other: string, now: Instant, fault': Fault)
    requires Consistent(sha, ttl, c.store, c.writers, from)
    requires SafeRun(sha, ttl, c, [Resolving(a, built, t, fault)] + commands, from)
    requires fault != AtGet && fault != AtPut && !Live(c.store, KeyOf(sha, a), t.put)
    requires forall j | 0 <= j < |commands| ::
               commands[j].Evicting? && !commands[j].fails ==> commands[j].subject != SubjectOf(a)
    requires EndOf(commands, t.renew) <= now < t.put + ttl && KeyOf(sha, b) == KeyOf(sha, a) && fault' != AtGet
    ensures AnswerOf(sha, AfterCommands(sha, ttl, c, [Resolving(a, built, t, fault)] + commands).store, b, other, now,
                     fault') == Resolution(built, true)
  {
    var command, key := Resolving(a, built, t, fault), KeyOf(sha, a);
    var run := [command] + commands;
    assert run[0] == command && run[1..] == commands;
    CommandKeepsConsistency(sha, ttl, c, command, from);
    var after := AfterCommand(sha, ttl, c, command);
    assert key in after.store && after.store[key] == Payload(built, t.put + ttl) && after.writers[key] == a by {
      IndexKeysAreApart(sha, a, SubjectOf(a));
      hide KeyOf, IndexKey, SubjectOf, Stored, SafeRun, StoringIsSafe, AllIndexed;
      StoredCells(c.store, IndexKey(SubjectOf(a)), key, built, ttl, t, fault);
    }
    hide Consistent, AfterCommand, SafeCommand, KeyOf, SubjectOf;
    PayloadStays(sha, ttl, after, commands, key, t.renew);
  }

  /** And it does not serve what was evicted: over any safe run, from the eviction of a subject until it
      is resolved again, none of its authentications hits; a principal may hit the payload of another
      whose name has the same digest. */
  lemma EvictedIsNotServed(sha: string -> string, ttl: nat, c: Contents, commands: seq<Command>, i: nat,
                           from: Instant, a: Authentication, built: string, now: Instant, fault: Fault)
    requires IsDigest(sha) && Consistent(sha, ttl, c.store, c.writers, from) && SafeRun(sha, ttl, c, commands, from)
    requires i < |commands| && commands[i] == Evicting(SubjectOf(a), commands[i].Start(), false)
    requires forall j | i < j < |commands| && commands[j].Resolving? :: SubjectOf(commands[j].a) != SubjectOf(a)
    requires EndOf(commands, from) <= now
    ensures var after := AfterCommands(sha, ttl, c, commands);
            || AnswerOf(sha, after.store, a, built, now, fault) == Resolution(built, false)
            || (a.Principal? && KeyOf(sha, a) in after.writers && after.writers[KeyOf(sha, a)].Principal?
                && after.writers[KeyOf(sha, a)].name != a.name)
  {
    EvictedUntilResolved(sha, ttl, c, commands, i, SubjectOf(a), from);
    RunsKeepConsistency(sha, ttl, c, commands, from);
    hide SafeRun, AfterCommands, Indexed, AllIndexed;
    var after, key := AfterCommands(sha, ttl, c, commands), KeyOf(sha, a);
    if Hits(sha, after.store, a, now, fault) {
      KeysNameTheirSubject(sha, a, after.writers[key]);
      hide KeyOf;
    }
  }

  // ----- The service -----

  class TokenContextCache {
    const sha: string -> string
    const ttl: nat
    var store: Store
    ghost var writers: map<string, Authentication>

    constructor (sha: string -> string, ttl: nat)
      ensures this.sha == sha && this.ttl == ttl && store == map[] && writers == map[]
      ensures forall now :: Consistent(sha, ttl, store, writers, now)
    {
      this.sha, this.ttl := sha, ttl;
      store, writers := map[], map[];
    }

    method Get(key: string, now: Instant) returns (cached: Option<string>)
      ensures cached == if Live(store, key, now) && store[key].Payload? then Some(store[key].json) else None
    {
      if key in store && store[key].Payload? && now < store[key].until {
        return Some(store[key].json);
      }
      return None;
    }

    method Put(key: string, json: string, now: Instant)
      modifies this`store
      ensures store == old(store)[key := Payload(json, now + ttl)]
    {
      store := store[key := Payload(json, now + ttl)];
    }

    /** Two commands, each at its own time; the second is not sent if the first fails. */
    method AddSubjectIndex(index: string, key: string, add: Instant, renew: Instant, fault: Fault)
      modifies this`store
      ensures store == if fault == AtAdd then old(store)
                       else if fault == AtExpire then AddMember(old(store), index, key, add)
                       else Expire(AddMember(old(store), index, key, add), index, renew, ttl)
    {
      if fault == AtAdd { return; }
      store := AddMember(store, index, key, add);
      if fault == AtExpire { return; }
      store := Expire(store, index, renew, ttl);
    }

    /** A hit returns the cached payload and leaves the store alone; a miss returns the built one and
        stores it. Whatever failed before, keys stay filed under their subjects; from a store whose
        index and payloads agree, they agree afterwards exactly when storing was safe. */
    method Resolve(a: Authentication, built: string, t: Times, fault: Fault) returns (r: Resolution)
      modifies this
      ensures Contents(store, writers) == AfterResolve(sha, ttl, Contents(old(store), old(writers)), a, built, t, fault)
      ensures r == AnswerOf(sha, old(store), a, built, t.put, fault)
      ensures t.Ordered() && KeyIsTheSubjects(sha, old(writers), a) && WellFiled(sha, old(store), old(writers)) ==>
                WellFiled(sha, store, writers)
      ensures t.Ordered() && Consistent(sha, ttl, old(store), old(writers), t.put)
                && KeyIsTheSubjects(sha, old(writers), a) ==>
                (Consistent(sha, ttl, store, writers, t.renew) <==>
                 SafeCommand(sha, ttl, Contents(old(store), old(writers)), Resolving(a, built, t, fault)))
    {
      hide Stored, StoringIsSafe, KeyOf, IndexKey, SubjectOf, WellFiled;
      var key, index := KeyOf(sha, a), IndexKey(SubjectOf(a));
      if t.Ordered() && Consistent(sha, ttl, store, writers, t.put) {
        TimeKeepsConsistency(sha, ttl, store, writers, t.put, t.renew);
      }
      hide Consistent;
      if fault == AtGet {
        return Resolution(built, false);
      }
      var cached := Get(key, t.put);
      if cached.Some? {
        return Resolution(cached.value, true);
      }
      if fault == AtPut {
        return Resolution(built, false);
      }
      if t.Ordered() && KeyIsTheSubjects(sha, writers, a) {
        if WellFiled(sha, store, writers) {
          StoringFilesWell(sha, store, writers, a, built, ttl, t, fault);
        }
        if Consistent(sha, ttl, store, writers, t.put) {
          StoringKeepsConsistency(sha, ttl, store, writers, a, built, t, fault);
        }
      }
      ghost var before := store;
      Put(key, built, t.put);
      writers := writers[key := a];
      AddSubjectIndex(index, key, t.add, t.renew, fault);
      StoredInSteps(before, index, key, built, ttl, t, fault);
      return Resolution(built, false);
    }

    /** Reads the members, then deletes the index and them; a failing read deletes nothing. Payloads
        of other subjects stay whatever failed before; from a store whose index and payloads agree,
        no live payload of the subject is left. */
    method EvictBySubjectIndex(subject: string, now: Instant, fails: bool) returns (deleted: nat)
      modifies this`store
      ensures Contents(store, writers) == AfterEviction(Contents(old(store), writers), subject, now, fails)
      ensures deleted == if fails then 0
                         else |set key | key in Targets(old(store), subject, now) && Live(old(store), key, now)|
      ensures WellFiled(sha, old(store), writers) ==> WellFiled(sha, store, writers)
      ensures WellFiled(sha, old(store), writers) ==>
                forall key | key in writers && SubjectOf(writers[key]) != subject ::
                  (key in store <==> key in old(store)) && (key in store ==> store[key] == old(store)[key])
      ensures Consistent(sha, ttl, old(store), writers, now) ==> Consistent(sha, ttl, store, writers, now)
      ensures Consistent(sha, ttl, old(store), writers, now) && !fails ==>
                forall key | Live(store, key, now) && store[key].Payload? :: SubjectOf(writers[key]) != subject
    {
      hide Consistent, WellFiled, IndexKey, SubjectOf;
      if fails { return 0; }
      if WellFiled(sha, store, writers) {
        EvictionFilesWell(sha, store, writers, subject, now);
      }
      if Consistent(sha, ttl, store, writers, now) {
        EvictionKeepsConsistency(sha, ttl, store, writers, subject, now);
        EvictionIsComplete(sha, ttl, store, writers, subject, now);
      }
      var index := IndexKey(subject);
      var members := if Live(store, index, now) && store[index].Index? then store[index].keys else {};
      var targets := {index} + members;
      var there := set key | key in targets && Live(store, key, now);
      deleted := |there|;
      store := store - targets;
    }
  }
}

/** Service alerts: cooldown keys, sending, suppression and resolution over whole polls. */
module Alerts {
  import opened Clock
  import opened Text
  import opened Validation
  import opened Wrappers
  import StateStore

  // ----- Keys -----

  datatype Alert = Alert(service: string, logType: string, severity: string, errorCode: string, reason: string,
                         category: string)

  function Folded(s: string): string {
    ToLower(Trim(s))
  }

  function PartsOf(a: Alert): seq<string> {
    ["service-alert", Folded(a.service), Folded(a.logType), Folded(a.severity), Folded(a.errorCode), Folded(a.reason),
     Folded(a.category)]
  }

  /** The cooldown key: the parts joined by NUL, without empty parts at the ends. */
  function CooldownKey(a: Alert): string {
    TrimNul(Join(PartsOf(a), NUL))
  }

  /** The service a stored key belongs to, if the key tells: a cooldown key, or a legacy fingerprint. */
  function StateService(key: string): Option<string> {
    var parts := Split(key, NUL);
    if |parts| > 1 && parts[0] == "service-alert" then NormalizeService(parts[1])
    else
      var legacy := Split(key, ':');
      if |legacy| > 2 && legacy[0] == "prod" then NormalizeService(legacy[1]) else None
  }

  lemma {:induction false} TrimNulKeepsPrefix(a: string, x: string) returns (y: string)
    requires a != "" && a[|a| - 1] != NUL
    ensures TrimNulRight(a + x) == a + y
    ensures y <= x
  {
    var s := a + x;
    if x == "" {
      assert s == a;
      y := "";
    } else if s[|s| - 1] == NUL {
      assert s[..|s| - 1] == a + x[..|x| - 1];
      y := TrimNulKeepsPrefix(a, x[..|x| - 1]);
    } else {
      y := x;
    }
  }

  lemma FoldedIsFolded(s: string)
    ensures Trim(Folded(s)) == Folded(s) && ToLower(Folded(s)) == Folded(s)
    ensures NormalizeService(Folded(s)) == NormalizeService(s)
  {
    TrimTrims(s);
    LowerKeepsTrimmed(Trim(s));
    LowerIsIdempotent(Trim(s));
    TrimmedIsFixed(Folded(s));
  }

  lemma LowerKeepsTrimmed(s: string)
    requires Trimmed(s)
    ensures Trimmed(ToLower(s))
  {
  }

  lemma LowerIsIdempotent(s: string)
    ensures ToLower(ToLower(s)) == ToLower(s)
  {
    assert |ToLower(ToLower(s))| == |s|;
  }

  /** The first part of a text that goes on with a separator or ends. */
  lemma SplitHead(piece: string, rest: string, sep: char)
    requires sep !in piece && (rest == "" || rest[0] == sep)
    ensures Split(piece + rest, sep)[0] == piece
  {
    if rest == "" {
      assert piece + rest == piece;
      SplitPlain(piece, sep);
    } else {
      assert piece + rest == piece + [sep] + rest[1..];
      SplitFirst(piece, rest[1..], sep);
    }
  }

  /** A cooldown key tells what its alert's service text tells, known or not, whatever its other
      parts are. */
  lemma KeyNamesItsService(a: Alert)
    requires NUL !in Folded(a.service)
    ensures StateService(CooldownKey(a)) == NormalizeService(a.service)
  {
    hide NormalizeService, Split, StateService, TrimNulRight, TrimNulLeft, Trim;
    var name := Folded(a.service);
    FoldedIsFolded(a.service);
    var tail := [NUL] + Join([Folded(a.logType), Folded(a.severity), Folded(a.errorCode), Folded(a.reason),
                              Folded(a.category)], NUL);
    KeyJoins(a);
    JoinedKeyTells(name, tail);
  }

  lemma KeyJoins(a: Alert)
    ensures Join(["service-alert", Folded(a.service), Folded(a.logType), Folded(a.severity), Folded(a.errorCode),
                  Folded(a.reason), Folded(a.category)], NUL) ==
            "service-alert" + ([NUL] + Folded(a.service) + ([NUL] +
              Join([Folded(a.logType), Folded(a.severity), Folded(a.errorCode), Folded(a.reason), Folded(a.category)],
                   NUL)))
  {
    hide Folded, Join;
    var others := [Folded(a.logType), Folded(a.severity), Folded(a.errorCode), Folded(a.reason), Folded(a.category)];
    JoinPeels(Folded(a.service), others, NUL);
    JoinPeels("service-alert", [Folded(a.service)] + others, NUL);
    assert ["service-alert"] + ([Folded(a.service)] + others) ==
           ["service-alert", Folded(a.service), Folded(a.logType), Folded(a.severity), Folded(a.errorCode),
            Folded(a.reason), Folded(a.category)];
  }

  lemma JoinedKeyTells(name: string, tail: string)
    requires NUL !in name && tail != "" && tail[0] == NUL
    ensures StateService(TrimNul("service-alert" + ([NUL] + name + tail))) == NormalizeService(name)
  {
    hide NormalizeService, Split, StateService, TrimNulRight;
    var key := "service-alert" + ([NUL] + name + tail);
    assert key[0] == 's';
    assert TrimNulLeft(key) == key;
    if name != "" {
      var head := "service-alert" + [NUL] + name;
      assert key == head + tail;
      var rest := TrimNulKeepsPrefix(head, tail);
      assert head + rest == "service-alert" + [NUL] + (name + rest);
      KeyWithService(name, rest);
    } else {
      assert [NUL] + name + tail == [NUL] + tail;
      var y := TrimNulKeepsPrefix("service-alert", [NUL] + tail);
      NamelessKey(tail, y);
    }
  }

  lemma NamelessKey(tail: string, y: string)
    requires tail != "" && tail[0] == NUL && y <= [NUL] + tail
    ensures StateService("service-alert" + y) == NormalizeService("")
  {
    hide NormalizeService, Split, StateService;
    if y == "" {
      assert "service-alert" + y == "service-alert";
      PlainKeyTellsNothing("service-alert");
      BlankIsNoService();
    } else {
      var rest := y[1..];
      assert "service-alert" + y == "service-alert" + [NUL] + ("" + rest);
      KeyWithService("", rest);
    }
  }

  lemma PlainKeyTellsNothing(key: string)
    requires NUL !in key && ':' !in key
    ensures StateService(key) == None
  {
    hide NormalizeService, Split;
    SplitPlain(key, NUL);
    SplitPlain(key, ':');
  }

  lemma BlankIsNoService()
    ensures NormalizeService("") == None
  {
  }

  lemma KeyWithService(name: string, rest: string)
    requires NUL !in name && (rest == "" || rest[0] == NUL)
    ensures StateService("service-alert" + [NUL] + (name + rest)) == NormalizeService(name)
  {
    hide NormalizeService;
    SplitFirst("service-alert", name + rest, NUL);
    SplitHead(name, rest, NUL);
  }

  lemma KnownNamesArePlain(service: string)
    requires NormalizeService(service).Some?
    ensures NUL !in Folded(service)
  {
  }

  /** Two alerts share a cooldown exactly if they agree, up to case and outer space, in service, log type,
      severity, code, reason and category. */
  lemma CooldownKeysAgree(a: Alert, b: Alert)
    requires NUL !in a.service + a.logType + a.severity + a.errorCode + a.reason + a.category
    requires NUL !in b.service + b.logType + b.severity + b.errorCode + b.reason + b.category
    ensures CooldownKey(a) == CooldownKey(b) <==>
            && ToLower(Trim(a.service)) == ToLower(Trim(b.service))
            && ToLower(Trim(a.logType)) == ToLower(Trim(b.logType))
            && ToLower(Trim(a.severity)) == ToLower(Trim(b.severity))
            && ToLower(Trim(a.errorCode)) == ToLower(Trim(b.errorCode))
            && ToLower(Trim(a.reason)) == ToLower(Trim(b.reason))
            && ToLower(Trim(a.category)) == ToLower(Trim(b.category))
  {
    PartsArePlain(a);
    PartsArePlain(b);
    TrimmedJoinsAgree(PartsOf(a), PartsOf(b));
    HeadedPartsStay(PartsOf(a), PartsOf(b));
  }

  lemma PartsArePlain(a: Alert)
    requires NUL !in a.service + a.logType + a.severity + a.errorCode + a.reason + a.category
    ensures Plain(PartsOf(a))
  {
    FoldedIsPlain(a.service);
    FoldedIsPlain(a.logType);
    FoldedIsPlain(a.severity);
    FoldedIsPlain(a.errorCode);
    FoldedIsPlain(a.reason);
    FoldedIsPlain(a.category);
    hide Folded;
  }

  lemma FoldedIsPlain(s: string)
    ensures NUL in Folded(s) ==> NUL in s
  {
    TrimTrims(s);
  }

  predicate Contains(s: string, part: string) {
    part <= s || (s != "" && Contains(s[1..], part))
  }

  predicate IsLegacyFingerprint(key: string) {
    "prod:" <= key && Contains(key, ":v2:")
  }

  lemma {:induction false} ContainsMeaning(s: string, part: string)
    ensures Contains(s, part) <==> exists i | 0 <= i <= |s| :: part <= s[i..]
  {
    if part <= s {
      assert s[0..] == s;
    } else if s != "" {
      ContainsMeaning(s[1..], part);
      forall i | 1 <= i <= |s| ensures s[i..] == s[1..][i - 1..] {
      }
      forall i | 0 <= i <= |s| - 1 ensures s[1..][i..] == s[i + 1..] {
      }
      if i :| 0 <= i <= |s| && part <= s[i..] {
        assert i != 0 by { assert s[0..] == s; }
        assert part <= s[1..][i - 1..];
      }
      if i :| 0 <= i <= |s[1..]| && part <= s[1..][i..] {
        assert part <= s[i + 1..];
      }
    }
  }

  lemma LegacyMeaning(key: string)
    ensures IsLegacyFingerprint(key) <==> "prod:" <= key && exists i | 0 <= i <= |key| :: ":v2:" <= key[i..]
  {
    ContainsMeaning(key, ":v2:");
  }

  lemma {:induction false} ContainsLater(before: string, part: string, after: string)
    ensures Contains(before + part + after, part)
  {
    if before != "" {
      ContainsLater(before[1..], part, after);
      assert (before + part + after)[1..] == before[1..] + part + after;
    }
  }

  /** The fingerprints under which alerts were once stored are recognised, and tell their service. */
  lemma LegacyFingerprintsTell(domain: string, rest: string)
    requires ':' !in domain && NUL !in domain && NUL !in rest
    ensures var key := "prod:" + domain + ":v2:" + rest;
            IsLegacyFingerprint(key) && StateService(key) == NormalizeService(domain)
  {
    hide NormalizeService, Split, Contains;
    var key := "prod:" + domain + ":v2:" + rest;
    ContainsLater("prod:" + domain, ":v2:", rest);
    SplitPlain(key, NUL);
    assert key == "prod" + [':'] + (domain + [':'] + ("v2:" + rest));
    SplitFirst("prod", domain + [':'] + ("v2:" + rest), ':');
    SplitFirst(domain, "v2:" + rest, ':');
    assert "v2:" + rest == "v2" + [':'] + rest;
    SplitFirst("v2", rest, ':');
  }

  // ----- Steps on the stored alert states -----

  type Book = map<string, StateStore.AlertState>

  function Stored(book: Book, key: string): StateStore.AlertState {
    if key in book then book[key] else StateStore.AlertState(false, 0, 0)
  }

  /** The cooldown in force: the stored one, the configured one, or 15 minutes. */
  function Cooldown(storedSec: int, configured: int): nat {
    if storedSec > 0 then storedSec * SECOND else if configured > 0 then configured else 15 * MINUTE
  }

  predicate ShouldSend(book: Book, key: string, cooldown: nat, now: Instant) {
    var s := Stored(book, key);
    s.lastSentAt == 0 || now >= s.lastSentAt + cooldown || !s.active
  }

  function Marked(book: Book, key: string, active: bool, at: Instant): Book {
    book[key := Stored(book, key).(active := active, lastSentAt := at,
                                   resolvedAt := if active then Stored(book, key).resolvedAt else at)]
  }

  /** What the outside world answers to one send: when it was checked, whether it arrived, when it
      was stored. */
  datatype Outcome = Outcome(checkedAt: Instant, delivered: bool, storedAt: Instant)

  function AfterAlert(book: Book, key: string, cooldown: nat, o: Outcome): Book {
    if !ShouldSend(book, key, cooldown, o.checkedAt) then book[key := Stored(book, key).(active := true)]
    else if o.delivered then Marked(book, key, true, o.storedAt)
    else book
  }

  function AfterAlerts(book: Book, keys: seq<string>, cooldown: nat, outcome: nat -> Outcome): Book {
    if keys == [] then book
    else
      var n := |keys| - 1;
      AfterAlert(AfterAlerts(book, keys[..n], cooldown, outcome), keys[n], cooldown, outcome(n))
  }

  /** A key may be resolved: active, without an alert in this poll, and if it names a service only
      when that service was observed. */
  predicate Resolvable(book: Book, current: set<string>, observed: set<string>, key: string) {
    && key in book && book[key].active && key !in current
    && (StateService(key).Some? ==> StateService(key).value in observed)
  }

  predicate Resolves(book: Book, current: set<string>, observed: set<string>, delivered: string -> bool, key: string) {
    Resolvable(book, current, observed, key) && (IsLegacyFingerprint(key) || delivered(key))
  }

  function AfterResolution(book: Book, current: set<string>, observed: set<string>,
                           delivered: string -> bool, at: string -> Instant): Book
  {
    map key | key in book ::
      if Resolves(book, current, observed, delivered, key)
      then StateStore.AlertState(false, at(key), at(key)) else book[key]
  }

  // ----- The history of a run -----

  /** What leaves the monitor: an alert that was delivered, or the keys that one poll resolved. */
  datatype Entry =
    | Sent(key: string, checkedAt: Instant, storedAt: Instant, cooldown: nat)
    | Cleared(keys: set<string>)

  predicate Concerns(e: Entry, key: string) {
    if e.Sent? then e.key == key else key in e.keys
  }

  /** The entry an alert adds, if it is sent and arrives. */
  function SendOf(book: Book, key: string, cooldown: nat, o: Outcome): seq<Entry> {
    if ShouldSend(book, key, cooldown, o.checkedAt) && o.delivered
    then [Sent(key, o.checkedAt, o.storedAt, cooldown)] else []
  }

  /** The entries of the alerts of a poll, in their order. */
  function SendsOf(book: Book, keys: seq<string>, cooldown: nat, outcome: nat -> Outcome): seq<Entry> {
    if keys == [] then []
    else
      var n := |keys| - 1;
      SendsOf(book, keys[..n], cooldown, outcome) +
      SendOf(AfterAlerts(book, keys[..n], cooldown, outcome), keys[n], cooldown, outcome(n))
  }

  function ClearedBy(book: Book, current: set<string>, observed: set<string>, delivered: string -> bool): set<string> {
    set key | key in book && Resolves(book, current, observed, delivered, key)
  }

  /** One poll: the keys of its alerts, the cooldown in force, what became of each send, whether there
      is a channel for resolutions, the services observed, and what became of each resolution. */
  datatype Poll = Poll(began: Instant, ended: Instant, keys: seq<string>, cooldown: nat, outcome: nat -> Outcome,
                       general: bool, observed: set<string>, resolved: string -> bool, resolvedAt: string -> Instant)

  function CurrentOf(p: Poll): set<string> {
    set key | key in p.keys
  }

  function AfterPoll(book: Book, p: Poll): Book {
    var polled := AfterAlerts(book, p.keys, p.cooldown, p.outcome);
    if p.general then AfterResolution(polled, CurrentOf(p), p.observed, p.resolved, p.resolvedAt) else polled
  }

  function PollEntries(book: Book, p: Poll): seq<Entry> {
    SendsOf(book, p.keys, p.cooldown, p.outcome) +
    if p.general
    then [Cleared(ClearedBy(AfterAlerts(book, p.keys, p.cooldown, p.outcome), CurrentOf(p), p.observed, p.resolved))]
        else []
  }

  function AfterPolls(book: Book, polls: seq<Poll>): Book {
    if polls == [] then book else AfterPoll(AfterPolls(book, polls[..|polls| - 1]), polls[|polls| - 1])
  }

  /** Everything a run sends and resolves, from the stored states it starts with. */
  function Entries(book: Book, polls: seq<Poll>): seq<Entry> {
    if polls == [] then []
    else
      var before := polls[..|polls| - 1];
      Entries(book, before) + PollEntries(AfterPolls(book, before), polls[|polls| - 1])
  }

  /** The clock never goes back: not within a poll, and not from one poll to the next. */
  ghost predicate InTime(p: Poll) {
    && 0 < p.began <= p.ended
    && (forall i | 0 <= i < |p.keys| :: p.began <= p.outcome(i).checkedAt <= p.outcome(i).storedAt <= p.ended)
    && (forall i, j | 0 <= i < j < |p.keys| :: p.outcome(i).storedAt <= p.outcome(j).checkedAt)
  }

  ghost predicate ClockNeverGoesBack(polls: seq<Poll>) {
    && (forall i | 0 <= i < |polls| :: InTime(polls[i]))
    && (forall i, j | 0 <= i < j < |polls| :: polls[i].ended <= polls[j].began)
  }

  // ----- Spacing -----

  /** The last entry that concerns a key. */
  function Last(log: seq<Entry>, key: string): Option<Entry> {
    if log == [] then None
    else if Concerns(log[|log| - 1], key) then Some(log[|log| - 1])
    else Last(log[..|log| - 1], key)
  }

  /** The send comes a full cooldown after the last send for its key, unless it was resolved since. */
  predicate SpacedAfter(log: seq<Entry>, e: Entry) {
    e.Sent? ==>
      match Last(log, e.key)
      case Some(Sent(_, _, storedAt, _)) => e.checkedAt >= storedAt + e.cooldown
      case _ => true
  }

  predicate Spaced(log: seq<Entry>) {
    forall i | 0 <= i < |log| :: SpacedAfter(log[..i], log[i])
  }

  /** An alert whose last entry is a send is stored active with the time of that send. */
  ghost predicate Recorded(book: Book, log: seq<Entry>) {
    forall key :: var last := Last(log, key);
      last.Some? && last.value.Sent? ==>
        key in book && book[key].active && book[key].lastSentAt == last.value.storedAt != 0
  }

  /** Sends are stored one after the other, the last one by `until`. */
  predicate InOrder(log: seq<Entry>, until: Instant) {
    && (forall i | 0 <= i < |log| && log[i].Sent? :: log[i].storedAt <= until)
    && (forall i, j | 0 <= i < j < |log| && log[i].Sent? && log[j].Sent? :: log[i].storedAt <= log[j].storedAt)
  }

  ghost predicate Kept(book: Book, log: seq<Entry>, until: Instant) {
    Recorded(book, log) && Spaced(log) && InOrder(log, until)
  }

  lemma Appended(log: seq<Entry>, e: Entry)
    ensures forall key :: Last(log + [e], key) == if Concerns(e, key) then Some(e) else Last(log, key)
    ensures Spaced(log) && SpacedAfter(log, e) ==> Spaced(log + [e])
  {
    assert (log + [e])[..|log|] == log;
    if Spaced(log) && SpacedAfter(log, e) {
      forall i | 0 <= i < |log + [e]| ensures SpacedAfter((log + [e])[..i], (log + [e])[i]) {
        assert (log + [e])[..i] == log[..i];
        assert log[..|log|] == log;
      }
    }
  }

  /** One alert of a poll keeps the history spaced. */
  lemma AlertKeepsSpacing(book: Book, log: seq<Entry>, until: Instant, key: string, cooldown: nat, o: Outcome)
    requires Kept(book, log, until) && 0 < o.storedAt && until <= o.storedAt
    ensures Kept(AfterAlert(book, key, cooldown, o), log + SendOf(book, key, cooldown, o), o.storedAt)
  {
    if ShouldSend(book, key, cooldown, o.checkedAt) && o.delivered {
      Appended(log, Sent(key, o.checkedAt, o.storedAt, cooldown));
    } else {
      assert log + [] == log;
    }
  }

  /** So does resolving keys. */
  lemma ClearKeepsSpacing(book: Book, log: seq<Entry>, until: Instant, current: set<string>, observed: set<string>,
                          delivered: string -> bool, at: string -> Instant)
    requires Kept(book, log, until)
    ensures Kept(AfterResolution(book, current, observed, delivered, at),
                 log + [Cleared(ClearedBy(book, current, observed, delivered))], until)
  {
    hide Resolves;
    Appended(log, Cleared(ClearedBy(book, current, observed, delivered)));
  }

  lemma LaterKept(book: Book, log: seq<Entry>, until: Instant, later: Instant)
    requires Kept(book, log, until) && until <= later
    ensures Kept(book, log, later)
  {
  }

  lemma {:induction false} AlertsKeepSpacing(book: Book, log: seq<Entry>, until: Instant, p: Poll, n: nat)
    requires Kept(book, log, until) && InTime(p) && until <= p.began && n <= |p.keys|
    ensures Kept(AfterAlerts(book, p.keys[..n], p.cooldown, p.outcome),
                 log + SendsOf(book, p.keys[..n], p.cooldown, p.outcome),
                     if n == 0 then p.began else p.outcome(n - 1).storedAt)
  {
    hide Kept, AfterAlert, SendOf;
    if n == 0 {
      assert log + [] == log;
      LaterKept(book, log, until, p.began);
    } else {
      AlertsKeepSpacing(book, log, until, p, n - 1);
      var keys := p.keys[..n];
      assert keys[..n - 1] == p.keys[..n - 1];
      var before := AfterAlerts(book, p.keys[..n - 1], p.cooldown, p.outcome);
      var sends := SendsOf(book, p.keys[..n - 1], p.cooldown, p.outcome);
      var last := SendOf(before, keys[n - 1], p.cooldown, p.outcome(n - 1));
      AlertKeepsSpacing(before, log + sends, if n == 1 then p.began else p.outcome(n - 2).storedAt,
                        keys[n - 1], p.cooldown, p.outcome(n - 1));
      assert (log + sends) + last == log + (sends + last);
    }
  }

  lemma PollKeepsSpacing(book: Book, log: seq<Entry>, until: Instant, p: Poll)
    requires Kept(book, log, until) && InTime(p) && until <= p.began
    ensures Kept(AfterPoll(book, p), log + PollEntries(book, p), p.ended)
  {
    hide Kept, AfterResolution, ClearedBy;
    var n := |p.keys|;
    AlertsKeepSpacing(book, log, until, p, n);
    assert p.keys[..n] == p.keys;
    var sends := SendsOf(book, p.keys, p.cooldown, p.outcome);
    var polled := AfterAlerts(book, p.keys, p.cooldown, p.outcome);
    LaterKept(polled, log + sends, if n == 0 then p.began else p.outcome(n - 1).storedAt, p.ended);
    if p.general {
      ClearKeepsSpacing(polled, log + sends, p.ended, CurrentOf(p), p.observed, p.resolved, p.resolvedAt);
      var cleared := [Cleared(ClearedBy(polled, CurrentOf(p), p.observed, p.resolved))];
      assert (log + sends) + cleared == log + (sends + cleared);
    } else {
      assert sends + [] == sends;
    }
  }

  /** Every run keeps its stored states in step with its history, and its history spaced. */
  lemma {:induction false} RunKeepsSpacing(book: Book, polls: seq<Poll>)
    requires ClockNeverGoesBack(polls)
    ensures Kept(AfterPolls(book, polls), Entries(book, polls), if polls == [] then 0 else polls[|polls| - 1].ended)
  {
    if polls != [] {
      hide Kept, AfterPoll, PollEntries;
      var before := polls[..|polls| - 1];
      RunKeepsSpacing(book, before);
      PollKeepsSpacing(AfterPolls(book, before), Entries(book, before),
                       if before == [] then 0 else before[|before| - 1].ended, polls[|polls| - 1]);
    }
  }

  /** Cooldown over whole runs: from any stored states, over any polls whose clock never goes back, two
      sends for one key with no resolution of it between them are at least the cooldown in force at
      the second one apart. */
  lemma SendsAreSpaced(book: Book, polls: seq<Poll>, i: int, j: int)
    requires ClockNeverGoesBack(polls)
    requires var log := Entries(book, polls);
             && 0 <= i < j < |log| && log[i].Sent? && log[j].Sent? && log[i].key == log[j].key
             && forall m | i < m < j && log[m].Cleared? :: log[i].key !in log[m].keys
    ensures var log := Entries(book, polls);
            log[j].checkedAt >= log[i].storedAt + log[j].cooldown
  {
    var log := Entries(book, polls);
    RunKeepsSpacing(book, polls);
    hide Entries;
    var m := LastBefore(log, j, log[i].key, i);
    assert SpacedAfter(log[..j], log[j]);
    assert log[i].storedAt <= log[m].storedAt;
  }

  lemma {:induction false} LastBefore(log: seq<Entry>, j: int, key: string, i: int) returns (m: int)
    requires 0 <= i < j <= |log| && log[i].Sent? && log[i].key == key
    requires forall n | i < n < j && log[n].Cleared? :: key !in log[n].keys
    ensures i <= m < j && log[m].Sent? && log[m].key == key && Last(log[..j], key) == Some(log[m])
  {
    assert log[..j][..j - 1] == log[..j - 1];
    if Concerns(log[j - 1], key) {
      m := j - 1;
    } else {
      m := LastBefore(log, j - 1, key, i);
    }
  }

  // ----- The history decides -----

  /** Whether an alert is to be sent, by the history alone: nothing was sent or it was resolved since, or
      its last send was stored a cooldown ago. Before its first entry the state the run began with speaks
      for it, and a state without a sent time never holds it back. */
  predicate DueBy(start: Book, log: seq<Entry>, key: string, cooldown: nat, now: Instant) {
    match Last(log, key)
    case Some(Sent(_, _, storedAt, _)) => now >= storedAt + cooldown
    case Some(Cleared(_)) => true
    case None =>
      key in start && start[key].active && start[key].lastSentAt != 0 ==> now >= start[key].lastSentAt + cooldown
  }

  predicate ActiveBy(start: Book, log: seq<Entry>, key: string) {
    match Last(log, key)
    case Some(Sent(_, _, _, _)) => true
    case Some(Cleared(_)) => false
    case None => key in start && start[key].active
  }

  /** What the alerts of a poll send, by the history alone. */
  function SendsBy(start: Book, log: seq<Entry>, keys: seq<string>, cooldown: nat, outcome: nat -> Outcome):
    seq<Entry>
  {
    if keys == [] then []
    else
      var n := |keys| - 1;
      var before, o := SendsBy(start, log, keys[..n], cooldown, outcome), outcome(n);
      before + if o.delivered && DueBy(start, log + before, keys[n], cooldown, o.checkedAt)
               then [Sent(keys[n], o.checkedAt, o.storedAt, cooldown)] else []
  }

  function KeysIn(start: Book, log: seq<Entry>): set<string> {
    start.Keys + set e | e in log && e.Sent? :: e.key
  }

  /** What a poll resolves, by the history alone: what is active, has no alert in this poll, belongs to
      no service that was not observed, and is announced, unless it is a legacy fingerprint. */
  function ClearsBy(start: Book, log: seq<Entry>, p: Poll): set<string> {
    set key | && key in KeysIn(start, log) && ActiveBy(start, log, key) && key !in p.keys
              && (StateService(key).Some? ==> StateService(key).value in p.observed)
              && (("prod:" <= key && Contains(key, ":v2:")) || p.resolved(key))
  }

  function EntriesBy(start: Book, log: seq<Entry>, p: Poll): seq<Entry> {
    var sends := SendsBy(start, log, p.keys, p.cooldown, p.outcome);
    sends + if p.general then [Cleared(ClearsBy(start, log + sends, p))] else []
  }

  /** Everything a run sends and resolves, without any state but the one it began with. */
  function HistoryOf(start: Book, polls: seq<Poll>): seq<Entry> {
    if polls == [] then []
    else
      var log := HistoryOf(start, polls[..|polls| - 1]);
      log + EntriesBy(start, log, polls[|polls| - 1])
  }

  /** The stored states say of every key what the history says of it. */
  ghost predicate Summarises(book: Book, start: Book, log: seq<Entry>) {
    forall key ::
      match Last(log, key)
      case Some(Sent(_, _, storedAt, _)) =>
        key in KeysIn(start, log) && key in book && book[key].active && book[key].lastSentAt == storedAt != 0
      case Some(Cleared(_)) => key in book ==> key in KeysIn(start, log) && !book[key].active
      case None => (key in book <==> key in start) && Stored(book, key) == Stored(start, key)
  }

  lemma NothingHappened(start: Book)
    ensures Summarises(start, start, [])
  {
  }

  lemma MoreKeysIn(start: Book, log: seq<Entry>, e: Entry)
    ensures KeysIn(start, log + [e]) == KeysIn(start, log) + if e.Sent? then {e.key} else {}
  {
    assert e in log + [e] && forall x | x in log :: x in log + [e];
    assert forall x | x in log + [e] :: x in log || x == e;
  }

  lemma AlertByHistory(book: Book, start: Book, log: seq<Entry>, key: string, cooldown: nat, o: Outcome)
    requires Summarises(book, start, log) && o.storedAt > 0
    ensures SendOf(book, key, cooldown, o) ==
            if o.delivered && DueBy(start, log, key, cooldown, o.checkedAt)
            then [Sent(key, o.checkedAt, o.storedAt, cooldown)] else []
    ensures Summarises(AfterAlert(book, key, cooldown, o), start, log + SendOf(book, key, cooldown, o))
  {
    hide KeysIn;
    assert log + [] == log;
    var sent := Sent(key, o.checkedAt, o.storedAt, cooldown);
    Appended(log, sent);
    MoreKeysIn(start, log, sent);
  }

  lemma {:induction false} AlertsByHistory(book: Book, start: Book, log: seq<Entry>, keys: seq<string>, cooldown: nat,
                                           outcome: nat -> Outcome)
    requires Summarises(book, start, log) && forall i | 0 <= i < |keys| :: outcome(i).storedAt > 0
    ensures SendsOf(book, keys, cooldown, outcome) == SendsBy(start, log, keys, cooldown, outcome)
    ensures Summarises(AfterAlerts(book, keys, cooldown, outcome), start, log + SendsBy(start, log, keys, cooldown,
                                                                                        outcome))
  {
    hide Summarises, AfterAlert, SendOf, DueBy;
    if keys == [] {
      assert log + [] == log;
    } else {
      var n := |keys| - 1;
      AlertsByHistory(book, start, log, keys[..n], cooldown, outcome);
      var sends := SendsBy(start, log, keys[..n], cooldown, outcome);
      var between := AfterAlerts(book, keys[..n], cooldown, outcome);
      AlertByHistory(between, start, log + sends, keys[n], cooldown, outcome(n));
      assert (log + sends) + SendOf(between, keys[n], cooldown, outcome(n)) ==
             log + (sends + SendOf(between, keys[n], cooldown, outcome(n)));
    }
  }

  lemma ClearsByHistory(book: Book, start: Book, log: seq<Entry>, p: Poll)
    requires Summarises(book, start, log)
    ensures ClearedBy(book, CurrentOf(p), p.observed, p.resolved) == ClearsBy(start, log, p)
  {
    hide StateService, Contains;
    forall key ensures key in book && Resolves(book, CurrentOf(p), p.observed, p.resolved, key) <==>
                       key in ClearsBy(start, log, p) {
      assert ActiveBy(start, log, key) <==> key in book && book[key].active;
    }
  }

  lemma ClearedByHistory(book: Book, start: Book, log: seq<Entry>, p: Poll)
    requires Summarises(book, start, log)
    ensures ClearedBy(book, CurrentOf(p), p.observed, p.resolved) == ClearsBy(start, log, p)
    ensures Summarises(AfterResolution(book, CurrentOf(p), p.observed, p.resolved, p.resolvedAt), start,
                       log + [Cleared(ClearsBy(start, log, p))])
  {
    hide ClearsBy, Resolves, KeysIn;
    ClearsByHistory(book, start, log, p);
    var cleared := Cleared(ClearsBy(start, log, p));
    Appended(log, cleared);
    MoreKeysIn(start, log, cleared);
    forall key | key in ClearsBy(start, log, p) ensures key in KeysIn(start, log) {
      ClearsKnownKeys(start, log, p, key);
    }
  }

  lemma ClearsKnownKeys(start: Book, log: seq<Entry>, p: Poll, key: string)
    ensures key in ClearsBy(start, log, p) ==> key in KeysIn(start, log)
  {
    hide ActiveBy, StateService, Contains;
  }

  lemma PollByHistory(book: Book, start: Book, log: seq<Entry>, p: Poll)
    requires Summarises(book, start, log) && forall i | 0 <= i < |p.keys| :: p.outcome(i).storedAt > 0
    ensures PollEntries(book, p) == EntriesBy(start, log, p)
    ensures Summarises(AfterPoll(book, p), start, log + EntriesBy(start, log, p))
  {
    hide Summarises, AfterAlerts, SendsOf, SendsBy, ClearedBy, ClearsBy, AfterResolution;
    AlertsByHistory(book, start, log, p.keys, p.cooldown, p.outcome);
    var sends := SendsBy(start, log, p.keys, p.cooldown, p.outcome);
    assert sends + [] == sends;
    if p.general {
      ClearedByHistory(AfterAlerts(book, p.keys, p.cooldown, p.outcome), start, log + sends, p);
      assert (log + sends) + [Cleared(ClearsBy(start, log + sends, p))] == log + EntriesBy(start, log, p);
    }
  }

  /** The stored states do nothing but remember the history: over any run, from any stored states, what is
      sent and what is resolved is what the history decides. */
  lemma {:induction false} HistoryDecides(start: Book, polls: seq<Poll>)
    requires forall p | p in polls :: forall i | 0 <= i < |p.keys| :: p.outcome(i).storedAt > 0
    ensures Entries(start, polls) == HistoryOf(start, polls)
    ensures Summarises(AfterPolls(start, polls), start, HistoryOf(start, polls))
  {
    hide Summarises, AfterPoll, PollEntries, EntriesBy;
    if polls == [] {
      NothingHappened(start);
    } else {
      var before := polls[..|polls| - 1];
      assert forall p | p in before :: p in polls;
      HistoryDecides(start, before);
      PollByHistory(AfterPolls(start, before), start, HistoryOf(start, before), polls[|polls| - 1]);
    }
  }

  lemma {:induction false} OtherKeysSent(start: Book, log: seq<Entry>, keys: seq<string>, cooldown: nat,
                                         outcome: nat -> Outcome, key: string)
    requires key !in keys
    ensures Last(log + SendsBy(start, log, keys, cooldown, outcome), key) == Last(log, key)
  {
    hide DueBy, Last;
    assert log + [] == log;
    if keys != [] {
      var n := |keys| - 1;
      OtherKeysSent(start, log, keys[..n], cooldown, outcome, key);
      var before := SendsBy(start, log, keys[..n], cooldown, outcome);
      var sent := Sent(keys[n], outcome(n).checkedAt, outcome(n).storedAt, cooldown);
      assert keys[n] in keys;
      if SendsBy(start, log, keys, cooldown, outcome) != before {
        Appended(log + before, sent);
        assert (log + before) + [sent] == log + SendsBy(start, log, keys, cooldown, outcome);
      }
    }
  }

  lemma {:induction false} SendsByGrow(start: Book, log: seq<Entry>, keys: seq<string>, cooldown: nat,
                                       outcome: nat -> Outcome, n: nat)
    requires n <= |keys|
    ensures SendsBy(start, log, keys[..n], cooldown, outcome) <= SendsBy(start, log, keys, cooldown, outcome)
  {
    hide DueBy;
    if n < |keys| {
      SendsByGrow(start, log, keys[..|keys| - 1], cooldown, outcome, n);
      assert keys[..|keys| - 1][..n] == keys[..n];
    } else {
      assert keys[..n] == keys;
    }
  }

  /** In one poll the first alert of a key, if it can be delivered, is sent from every state that does not hold
      it back: a key that is not stored, is not active, was never sent, or was sent a cooldown ago. */
  lemma FirstAlertSent(start: Book, p: Poll, n: nat)
    requires n < |p.keys| && p.keys[n] !in p.keys[..n] && p.outcome(n).delivered
    requires p.keys[n] in start && start[p.keys[n]].active && start[p.keys[n]].lastSentAt != 0 ==>
               p.outcome(n).checkedAt >= start[p.keys[n]].lastSentAt + p.cooldown
    ensures Sent(p.keys[n], p.outcome(n).checkedAt, p.outcome(n).storedAt, p.cooldown) in EntriesBy(start, [], p)
  {
    var before := SendsBy(start, [], p.keys[..n], p.cooldown, p.outcome);
    OtherKeysSent(start, [], p.keys[..n], p.cooldown, p.outcome, p.keys[n]);
    OneMoreSend(start, [], p, n);
    SendsByGrow(start, [], p.keys, p.cooldown, p.outcome, n + 1);
    var sends := SendsBy(start, [], p.keys[..n + 1], p.cooldown, p.outcome);
    assert sends[|before|] == Sent(p.keys[n], p.outcome(n).checkedAt, p.outcome(n).storedAt, p.cooldown);
    assert EntriesBy(start, [], p)[|before|] == sends[|before|];
  }

  lemma {:induction false} SendsGrow(book: Book, keys: seq<string>, cooldown: nat, outcome: nat -> Outcome, n: nat)
    requires n <= |keys|
    ensures SendsOf(book, keys[..n], cooldown, outcome) <= SendsOf(book, keys, cooldown, outcome)
  {
    hide SendOf, AfterAlerts;
    if n < |keys| {
      var before := keys[..|keys| - 1];
      SendsGrow(book, before, cooldown, outcome, n);
      assert before[..n] == keys[..n];
    } else {
      assert keys[..n] == keys;
    }
  }

  lemma SentByHistory(book: Book, start: Book, log: seq<Entry>, p: Poll, n: nat)
    requires Summarises(book, start, log) && forall i | 0 <= i < |p.keys| :: p.outcome(i).storedAt > 0
    requires n < |p.keys|
    ensures var sends, o := SendsOf(book, p.keys[..n], p.cooldown, p.outcome), p.outcome(n);
            SendsOf(book, p.keys[..n + 1], p.cooldown, p.outcome) ==
            sends + if o.delivered && DueBy(start, log + sends, p.keys[n], p.cooldown, o.checkedAt)
                    then [Sent(p.keys[n], o.checkedAt, o.storedAt, p.cooldown)] else []
  {
    hide *;
    AlertsByHistory(book, start, log, p.keys[..n], p.cooldown, p.outcome);
    AlertsByHistory(book, start, log, p.keys[..n + 1], p.cooldown, p.outcome);
    OneMoreSend(start, log, p, n);
  }

  /** Over whole runs an alert that can be delivered is sent exactly when the last entry of its key is
      none, a resolution, or a send stored a cooldown before; where there is none, the state the run
      began with holds it back only if it is active and was sent less than a cooldown before. */
  lemma SentExactly(start: Book, polls: seq<Poll>, p: Poll, n: nat)
    requires forall q | q in polls + [p] :: forall i | 0 <= i < |q.keys| :: q.outcome(i).storedAt > 0
    requires n < |p.keys|
    ensures var book := AfterPolls(start, polls);
            var log := Entries(start, polls) + SendsOf(book, p.keys[..n], p.cooldown, p.outcome);
            var log' := Entries(start, polls) + SendsOf(book, p.keys[..n + 1], p.cooldown, p.outcome);
            var key, o := p.keys[n], p.outcome(n);
            var due := match Last(log, key)
                       case Some(Sent(_, _, storedAt, _)) => o.checkedAt >= storedAt + p.cooldown
                       case Some(Cleared(_)) => true
                       case None => key in start && start[key].active && start[key].lastSentAt != 0 ==>
                         o.checkedAt >= start[key].lastSentAt + p.cooldown;
            && log' <= Entries(start, polls + [p])
            && log' == log + if due && o.delivered then [Sent(key, o.checkedAt, o.storedAt, p.cooldown)] else []
  {
    hide *;
    assert forall q | q in polls :: q in polls + [p];
    assert p in polls + [p];
    HistoryDecides(start, polls);
    var book, log := AfterPolls(start, polls), Entries(start, polls);
    SentByHistory(book, start, log, p, n);
    var before, after := p.keys[..n], p.keys[..n + 1];
    var sends, sends' := SendsOf(book, before, p.cooldown, p.outcome), SendsOf(book, after, p.cooldown, p.outcome);
    var sent := Sent(p.keys[n], p.outcome(n).checkedAt, p.outcome(n).storedAt, p.cooldown);
    assert log + sends + [sent] == log + (sends + [sent]) && log + sends + [] == log + (sends + []);
    DueMeaning(start, log + sends, p.keys[n], p.cooldown, p.outcome(n).checkedAt);
    EntriesGoOn(start, polls, p, n + 1);
  }

  lemma DueMeaning(start: Book, log: seq<Entry>, key: string, cooldown: nat, now: Instant)
    ensures DueBy(start, log, key, cooldown, now) <==>
            match Last(log, key)
            case Some(Sent(_, _, storedAt, _)) => now >= storedAt + cooldown
            case Some(Cleared(_)) => true
            case None => key in start && start[key].active && start[key].lastSentAt != 0 ==>
              now >= start[key].lastSentAt + cooldown
  {
    hide Last;
  }

  lemma EntriesGoOn(start: Book, polls: seq<Poll>, p: Poll, n: nat)
    requires n <= |p.keys|
    ensures Entries(start, polls) + SendsOf(AfterPolls(start, polls), p.keys[..n], p.cooldown, p.outcome) <=
            Entries(start, polls + [p])
  {
    hide SendsOf, PollEntries, AfterPolls;
    assert (polls + [p])[..|polls|] == polls;
    PollGoesOn(AfterPolls(start, polls), Entries(start, polls), p, n);
  }

  lemma OneMoreSend(start: Book, log: seq<Entry>, p: Poll, n: nat)
    requires n < |p.keys|
    ensures var sends, o := SendsBy(start, log, p.keys[..n], p.cooldown, p.outcome), p.outcome(n);
            SendsBy(start, log, p.keys[..n + 1], p.cooldown, p.outcome) ==
            sends + if o.delivered && DueBy(start, log + sends, p.keys[n], p.cooldown, o.checkedAt)
                    then [Sent(p.keys[n], o.checkedAt, o.storedAt, p.cooldown)] else []
  {
    hide DueBy;
    assert p.keys[..n + 1][..n] == p.keys[..n];
  }

  lemma PollGoesOn(book: Book, log: seq<Entry>, p: Poll, n: nat)
    requires n <= |p.keys|
    ensures log + SendsOf(book, p.keys[..n], p.cooldown, p.outcome) <= log + PollEntries(book, p)
  {
    hide SendsOf, ClearedBy, AfterAlerts;
    SendsGrow(book, p.keys, p.cooldown, p.outcome, n);
  }

  // ----- The poll -----

  datatype ServiceDef = ServiceDef(name: string, logGroup: string)

  /** The services a poll queries: connected, with a log group, while the budget lasts. */
  function Queried(registry: seq<ServiceDef>, budget: nat): (queried: seq<ServiceDef>)
    ensures |queried| <= budget
    ensures forall s | s in queried :: s in registry && OpsConnected(s.name)
  {
    if registry == [] then []
    else
      var before, last := Queried(registry[..|registry| - 1], budget), registry[|registry| - 1];
      assert forall s | s in registry[..|registry| - 1] :: s in registry;
      assert last in registry;
      if OpsConnected(last.name) && !Blank(last.logGroup) && |before| < budget then before + [last] else before
  }

  /** Every service is queried that can be, in their order, until the budget is used up. */
  lemma {:induction false} QueriesAllItCan(registry: seq<ServiceDef>, budget: nat)
    ensures var queried := Queried(registry, budget);
            && (forall s | s in queried :: s.name in {"gateway", "auth", "report", "post"} && Trim(s.logGroup) != "")
            && (|queried| < budget ==>
                  forall s | s in registry && s.name in {"gateway", "auth", "report", "post"}
                      && Trim(s.logGroup) != "" ::
                    s in queried)
  {
    hide Trim;
    if registry != [] {
      var before, last := registry[..|registry| - 1], registry[|registry| - 1];
      QueriesAllItCan(before, budget);
      assert registry == before + [last];
    }
  }

  function AlertsOf(queried: seq<ServiceDef>, rows: string -> Option<seq<Alert>>): seq<Alert> {
    if queried == [] then []
    else
      var last := rows(queried[|queried| - 1].name);
      AlertsOf(queried[..|queried| - 1], rows) + if last.Some? then last.value else []
  }

  function Observed(queried: seq<ServiceDef>, rows: string -> Option<seq<Alert>>): set<string> {
    set s | s in queried && rows(s.name).Some? && NormalizeService(s.name).Some? :: NormalizeService(s.name).value
  }

  function Keys(alerts: seq<Alert>): (keys: seq<string>)
    ensures |keys| == |alerts|
    ensures forall i | 0 <= i < |alerts| :: keys[i] == CooldownKey(alerts[i])
  {
    if alerts == [] then [] else Keys(alerts[..|alerts| - 1]) + [CooldownKey(alerts[|alerts| - 1])]
  }

  /** The poll that these answers make. */
  function PollOf(began: Instant, ended: Instant, registry: seq<ServiceDef>, maxQueries: int,
                  rows: string -> Option<seq<Alert>>,
                  general: bool, cooldown: nat, outcome: nat -> Outcome, resolved: string -> bool,
                      resolvedAt: string -> Instant): Poll
  {
    var queried := Queried(registry, if maxQueries <= 0 then 6 else maxQueries);
    Poll(began, ended, Keys(AlertsOf(queried, rows)), cooldown, outcome, general, Observed(queried, rows), resolved,
         resolvedAt)
  }

  class AlertMonitor {
    var book: Book

    constructor (book: Book)
      ensures this.book == book
    {
      this.book := book;
    }

    /** One poll: sends or suppresses every alert, then resolves the active keys that are gone. States
        and entries are those the theorem on runs speaks of, whenever the poll began and ended. */
    method PollAlerts(registry: seq<ServiceDef>, maxQueries: int, rows: string -> Option<seq<Alert>>,
                      generalChannel: bool,
                      storedCooldownSec: int, configuredCooldown: int,
                      outcome: nat -> Outcome, resolved: string -> bool, resolvedAt: string -> Instant)
      returns (entries: seq<Entry>)
      modifies this
      ensures forall began, ended ::
                var p := PollOf(began, ended, registry, maxQueries, rows, generalChannel,
                                Cooldown(storedCooldownSec, configuredCooldown), outcome, resolved, resolvedAt);
                book == AfterPoll(old(book), p) && entries == PollEntries(old(book), p)
      ensures (forall i: nat :: outcome(i).storedAt > 0) ==>
                var cooldown := if storedCooldownSec > 0 then storedCooldownSec * SECOND
                                else if configuredCooldown > 0 then configuredCooldown else 15 * MINUTE;
                var p := PollOf(0, 0, registry, maxQueries, rows, generalChannel, cooldown, outcome, resolved,
                                resolvedAt);
                && entries == EntriesBy(old(book), [], p)
                && forall n | 0 <= n < |p.keys| && p.keys[n] !in p.keys[..n] && outcome(n).delivered
                     && (p.keys[n] in old(book) && old(book)[p.keys[n]].active
                         && old(book)[p.keys[n]].lastSentAt != 0 ==>
                           outcome(n).checkedAt >= old(book)[p.keys[n]].lastSentAt + cooldown) ::
                     Sent(p.keys[n], outcome(n).checkedAt, outcome(n).storedAt, cooldown) in entries
    {
      hide CooldownKey, StateService, AfterAlerts, SendsOf, AfterResolution, ClearedBy, Summarises, EntriesBy,
        Keys, AlertsOf, Queried, Observed;
      var alerts, observed := CollectAlerts(registry, if maxQueries <= 0 then 6 else maxQueries, rows);
      var current;
      current, entries := SendAll(Keys(alerts), Cooldown(storedCooldownSec, configuredCooldown), outcome);
      if generalChannel {
        var cleared := SendResolved(current, observed, resolved, resolvedAt);
        entries := entries + [Cleared(cleared)];
      }
      if forall i: nat :: outcome(i).storedAt > 0 {
        ghost var p := PollOf(0, 0, registry, maxQueries, rows, generalChannel,
                              Cooldown(storedCooldownSec, configuredCooldown), outcome, resolved, resolvedAt);
        NothingHappened(old(book));
        PollByHistory(old(book), old(book), [], p);
        forall n | 0 <= n < |p.keys| && p.keys[n] !in p.keys[..n] && outcome(n).delivered
          && (p.keys[n] in old(book) && old(book)[p.keys[n]].active && old(book)[p.keys[n]].lastSentAt != 0 ==>
                outcome(n).checkedAt >= old(book)[p.keys[n]].lastSentAt + p.cooldown)
          ensures Sent(p.keys[n], outcome(n).checkedAt, outcome(n).storedAt, p.cooldown) in entries
        {
          FirstAlertSent(old(book), p, n);
        }
      }
    }

    /** The loop over the alerts of a poll. */
    method SendAll(keys: seq<string>, cooldown: nat, outcome: nat -> Outcome)
      returns (current: set<string>, entries: seq<Entry>)
      modifies this
      ensures book == AfterAlerts(old(book), keys, cooldown, outcome)
      ensures entries == SendsOf(old(book), keys, cooldown, outcome)
      ensures current == set key | key in keys
    {
      hide AfterAlert, SendOf;
      current, entries := {}, [];
      for i := 0 to |keys|
        invariant book == AfterAlerts(old(book), keys[..i], cooldown, outcome)
        invariant entries == SendsOf(old(book), keys[..i], cooldown, outcome)
        invariant current == set key | key in keys[..i]
      {
        assert keys[..i + 1][..i] == keys[..i];
        assert keys[..i + 1] == keys[..i] + [keys[i]];
        current := current + {keys[i]};
        var sent := SendOrSuppress(keys[i], cooldown, outcome(i));
        entries := entries + sent;
      }
      assert keys[..|keys|] == keys;
    }

    method SendOrSuppress(key: string, cooldown: nat, o: Outcome) returns (sent: seq<Entry>)
      modifies this
      ensures book == AfterAlert(old(book), key, cooldown, o) && sent == SendOf(old(book), key, cooldown, o)
    {
      sent := [];
      if ShouldSend(book, key, cooldown, o.checkedAt) {
        if !o.delivered { return; }
        sent := [Sent(key, o.checkedAt, o.storedAt, cooldown)];
        book := Marked(book, key, true, o.storedAt);
      } else {
        book := book[key := Stored(book, key).(active := true)];
      }
    }

    method SendResolved(current: set<string>, observed: set<string>, delivered: string -> bool, at: string -> Instant)
      returns (cleared: set<string>)
      modifies this
      ensures book == AfterResolution(old(book), current, observed, delivered, at)
      ensures cleared == ClearedBy(old(book), current, observed, delivered)
    {
      hide StateService, IsLegacyFingerprint;
      cleared := {};
      var left := book.Keys;
      while left != {}
        invariant left <= old(book).Keys == book.Keys
        invariant forall key | key in book ::
                    book[key] == if key !in left && Resolves(old(book), current, observed, delivered, key)
                                 then StateStore.AlertState(false, at(key), at(key)) else old(book)[key]
        invariant cleared == set key | key in old(book) && key !in left
                    && Resolves(old(book), current, observed, delivered, key)
        decreases left
      {
        var key :| key in left;
        left := left - {key};
        if !book[key].active || key in current { continue; }
        var service := StateService(key);
        if service.Some? && service.value !in observed { continue; }
        if !IsLegacyFingerprint(key) && !delivered(key) { continue; }
        book := Marked(book, key, false, at(key));
        cleared := cleared + {key};
      }
      assert book == AfterResolution(old(book), current, observed, delivered, at);
    }
  }

  /** Queries the connected services one by one; a service is observed when its query succeeded. */
  method CollectAlerts(registry: seq<ServiceDef>, budget: nat, rows: string -> Option<seq<Alert>>)
    returns (alerts: seq<Alert>, observed: set<string>)
    ensures alerts == AlertsOf(Queried(registry, budget), rows)
    ensures observed == Observed(Queried(registry, budget), rows)
  {
    hide NormalizeService, OpsConnected;
    alerts, observed := [], {};
    var used := 0;
    for i := 0 to |registry|
      invariant used == |Queried(registry[..i], budget)|
      invariant alerts == AlertsOf(Queried(registry[..i], budget), rows)
      invariant observed == Observed(Queried(registry[..i], budget), rows)
    {
      var service := registry[i];
      ghost var before := Queried(registry[..i], budget);
      assert registry[..i + 1][..i] == registry[..i];
      assert (before + [service])[..|before|] == before;
      if !OpsConnected(service.name) { continue; }
      if Blank(service.logGroup) || used >= budget { continue; }
      used := used + 1;
      var result := rows(service.name);
      ObservedOneMore(before, service, rows);
      if result.None? { continue; }
      var name := NormalizeService(service.name);
      if name.Some? {
        observed := observed + {name.value};
      }
      alerts := alerts + result.value;
    }
    assert registry[..|registry|] == registry;
  }

  lemma ObservedOneMore(queried: seq<ServiceDef>, s: ServiceDef, rows: string -> Option<seq<Alert>>)
    ensures Observed(queried + [s], rows) == Observed(queried, rows) +
              if rows(s.name).Some? && NormalizeService(s.name).Some? then {NormalizeService(s.name).value} else {}
  {
    hide NormalizeService;
    assert s in queried + [s];
    assert forall t | t in queried :: t in queried + [s];
    assert forall t | t in queried + [s] :: t in queried || t == s;
  }

  /** Resolution needs an observation: an alert of a known service is cleared by a poll only if that
      poll's query for the service succeeded and brought no alert with its key. */
  lemma ResolutionNeedsObservation(a: Alert, book: Book, queried: seq<ServiceDef>,
                                   rows: string -> Option<seq<Alert>>, current: set<string>)
    requires NormalizeService(a.service).Some?
    requires Resolvable(book, current, Observed(queried, rows), CooldownKey(a))
    ensures CooldownKey(a) !in current
    ensures exists s :: s in queried && rows(s.name).Some? && NormalizeService(s.name) == NormalizeService(a.service)
  {
    KnownNamesArePlain(a.service);
    hide NormalizeService, CooldownKey, StateService, Folded;
    KeyNamesItsService(a);
  }

  /** An alert can be cleared without any observation exactly when its service is not a known one. */
  lemma ClearedWithoutObservation(a: Alert)
    requires NUL !in Folded(a.service)
    ensures (exists book, current :: Resolvable(book, current, {}, CooldownKey(a))) <==>
              NormalizeService(a.service).None?
    ensures NormalizeService(a.service).None? ==>
              Resolvable(map[CooldownKey(a) := StateStore.AlertState(true, 1, 0)], {}, {}, CooldownKey(a))
  {
    hide NormalizeService, CooldownKey, StateService;
    KeyNamesItsService(a);
    if NormalizeService(a.service).None? {
      assert Resolvable(map[CooldownKey(a) := StateStore.AlertState(true, 1, 0)], {}, {}, CooldownKey(a));
    }
  }
}

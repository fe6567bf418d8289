/** Which key and which limit the auth endpoints hand to the rate limiter. */
module AuthRateLimit {
  import opened RateLimiter
  import opened Wrappers

  type HexDigest = s: string | |s| == 64 witness seq(64, i => '0')
  /** SHA-256 in hexadecimal, an uninterpreted function with results of one length. */
  type Sha = string -> HexDigest

  datatype PathType = Login | Refresh | Logout

  datatype Properties = Properties(enabled: bool, loginPerMinute: Int32, refreshPerMinute: Int32,
                                   logoutPerMinute: Int32)

  /** A request as the filter sees it: `pathType` is the matched auth path, if any; `username`
      and `refreshToken` are the trimmed JSON fields, empty when absent. */
  datatype Request = Request(isPost: bool, pathType: Option<PathType>, ip: Option<string>, bodyTooLarge: bool,
                             username: string, refreshToken: string, minute: int)

  function BuildKey(sha: Sha, pathType: PathType, ip: Option<string>, username: string, refreshToken: string): string {
    var address := if ip.Some? then ip.value else "unknown-ip";
    match pathType
    case Login => "login:" + address + ":" + sha(if username == "" then "unknown-user" else username)
    case Refresh | Logout =>
      "refresh:" + address + ":" + sha(if refreshToken == "" then "unknown-refresh" else refreshToken)
  }

  function Limit(p: Properties, pathType: PathType): Int32 {
    match pathType
    case Login => p.loginPerMinute
    case Refresh => p.refreshPerMinute
    case Logout => p.logoutPerMinute
  }

  /** The limiter call a request makes, if it reaches the limiter at all. */
  function Charge(p: Properties, sha: Sha, r: Request): Option<Call> {
    if !p.enabled || !r.isPost || r.pathType.None? || r.bodyTooLarge then None
    else Some(Call(BuildKey(sha, r.pathType.value, r.ip, r.username, r.refreshToken), Limit(p, r.pathType.value),
                   r.minute))
  }

  function Charges(p: Properties, sha: Sha, requests: seq<Request>): seq<Call> {
    if requests == [] then []
    else
      var call := Charge(p, sha, requests[|requests| - 1]);
      Charges(p, sha, requests[..|requests| - 1]) + if call.Some? then [call.value] else []
  }

  lemma SuffixesAgree(a: string, b: string, x: HexDigest, y: HexDigest)
    requires a + x == b + y
    ensures a == b && x == y
  {
    assert |a| == |b|;
    assert a == (a + x)[..|a|];
    assert b == (b + y)[..|b|];
    assert x == (a + x)[|a|..];
    assert y == (b + y)[|b|..];
  }

  function Address(ip: Option<string>): string {
    if ip.Some? then ip.value else "unknown-ip"
  }

  /** The secret whose digest ends the key. */
  function Secret(pathType: PathType, username: string, refreshToken: string): string {
    if pathType.Login? then (if username == "" then "unknown-user" else username)
    else if refreshToken == "" then "unknown-refresh" else refreshToken
  }

  /** Two requests share a counter exactly when they are both logins or both not, from the same
      address text, with the same hashed secret: an address with ':' cannot forge another key. */
  lemma KeysAgree(sha: Sha, s: PathType, t: PathType, ip: Option<string>, jp: Option<string>,
                  user: string, user': string, token: string, token': string)
    ensures BuildKey(sha, s, ip, user, token) == BuildKey(sha, t, jp, user', token') <==>
            && (s.Login? <==> t.Login?)
            && Address(ip) == Address(jp)
            && sha(Secret(s, user, token)) == sha(Secret(t, user', token'))
  {
    var k, k' := BuildKey(sha, s, ip, user, token), BuildKey(sha, t, jp, user', token');
    assert k[0] == if s.Login? then 'l' else 'r';
    assert k'[0] == if t.Login? then 'l' else 'r';
    if k == k' {
      var prefix := if s.Login? then "login:" else "refresh:";
      var a, b := Address(ip), Address(jp);
      SuffixesAgree(prefix + a + ":", prefix + b + ":", sha(Secret(s, user, token)), sha(Secret(t, user', token')));
      assert a == (prefix + a + ":")[|prefix|..|prefix| + |a|];
      assert b == (prefix + b + ":")[|prefix|..|prefix| + |b|];
    }
  }

  /** Every call charged to a refresh key carries the refresh or the logout limit. */
  lemma {:induction false} RefreshKeysCarryTheirLimits(p: Properties, sha: Sha, requests: seq<Request>,
      ip: Option<string>, token: string, i: int)
    requires 0 <= i < |Charges(p, sha, requests)|
    requires Charges(p, sha, requests)[i].key == BuildKey(sha, Refresh, ip, "", token)
    ensures Charges(p, sha, requests)[i].limit <= Max(p.refreshPerMinute, p.logoutPerMinute)
  {
    var before, last := requests[..|requests| - 1], requests[|requests| - 1];
    if i < |Charges(p, sha, before)| {
      RefreshKeysCarryTheirLimits(p, sha, before, ip, token, i);
    } else {
      assert Charges(p, sha, requests)[i].key[0] == BuildKey(sha, last.pathType.value, last.ip, last.username,
                                                             last.refreshToken)[0];
      assert BuildKey(sha, Refresh, ip, "", token)[0] == 'r';
      assert last.pathType != Some(Login);
    }
  }

  /** Every login key carries the login limit. */
  lemma {:induction false} LoginKeysCarryTheirLimit(p: Properties, sha: Sha, requests: seq<Request>, ip: Option<string>,
                                                    username: string, i: int)
    requires 0 <= i < |Charges(p, sha, requests)|
    requires Charges(p, sha, requests)[i].key == BuildKey(sha, Login, ip, username, "")
    ensures Charges(p, sha, requests)[i].limit == p.loginPerMinute
  {
    var before, last := requests[..|requests| - 1], requests[|requests| - 1];
    if i < |Charges(p, sha, before)| {
      LoginKeysCarryTheirLimit(p, sha, before, ip, username, i);
    } else {
      assert Charges(p, sha, requests)[i].key[0] ==
             BuildKey(sha, last.pathType.value, last.ip, last.username, last.refreshToken)[0];
      assert BuildKey(sha, Login, ip, username, "")[0] == 'l';
      assert last.pathType == Some(Login);
    }
  }

  /** Logins of one user from one address: over any requests at most `loginPerMinute` pass in a minute. */
  lemma LoginBudget(h: Hashing, p: Properties, sha: Sha, requests: seq<Request>, ip: Option<string>, username: string,
                    minute: int)
    requires h.Valid() && p.loginPerMinute < INT_MAX
    requires forall i, j | 0 <= i < j < |requests| :: requests[i].minute <= requests[j].minute
    ensures var calls := Charges(p, sha, requests);
            Admitted(h, calls, BuildKey(sha, Login, ip, username, ""), Some(minute), 0, |calls|) <= Max(0,
                p.loginPerMinute)
  {
    hide BuildKey, Charges;
    var calls, key := Charges(p, sha, requests), BuildKey(sha, Login, ip, username, "");
    forall i | 0 <= i < |calls| && calls[i].key == key ensures calls[i].limit == p.loginPerMinute {
      LoginKeysCarryTheirLimit(p, sha, requests, ip, username, i);
    }
    ChargesKeepTheClock(p, sha, requests);
    MinuteBound(h, calls, key, Max(0, p.loginPerMinute), minute);
  }

  /** And no fewer: as long as the digests of the other keys of the minute differ from theirs in some
      row, a login passes exactly if fewer of them were counted in the minute. */
  lemma LoginsPassExactly(h: Hashing, p: Properties, sha: Sha, requests: seq<Request>, ip: Option<string>,
                          username: string,
                          i: nat, row: int)
    requires h.Valid() && p.loginPerMinute < INT_MAX && i < |Charges(p, sha, requests)| && 0 <= row < HASH_COUNT
    requires forall i, j | 0 <= i < j < |requests| :: requests[i].minute <= requests[j].minute
    requires var calls := Charges(p, sha, requests);
             && calls[i].key == BuildKey(sha, Login, ip, username, "")
             && forall j: nat |
                  j < i && calls[j].limit > 0 && calls[j].minute == calls[i].minute && calls[j].key != calls[i].key ::
                  DigestsDiffer(h, calls[i].key, calls[j].key, row)
    ensures var calls := Charges(p, sha, requests);
            var counted := set j: nat | j < i && calls[j].key == calls[i].key && calls[j].limit > 0
                                        && calls[j].minute == calls[i].minute;
            Admits(h, calls, i) <==> |counted| < p.loginPerMinute
  {
    hide BuildKey, Charges, Admits;
    LoginKeysCarryTheirLimit(p, sha, requests, ip, username, i);
    ChargesKeepTheClock(p, sha, requests);
    AdmittedExactly(h, Charges(p, sha, requests), i, row);
  }

  /** Exactly the requests that are POSTs to an auth path with a readable body are charged, each in its
      turn, under the key of what it sends and with the limit of its own path. */
  lemma {:induction false} ChargedExactly(p: Properties, sha: Sha, requests: seq<Request>, k: nat)
    requires k < |requests|
    ensures var calls, n := Charges(p, sha, requests), |Charges(p, sha, requests[..k])|;
            var r := requests[k];
            if p.enabled && r.isPost && r.pathType.Some? && !r.bodyTooLarge
            then && n < |calls| && calls[n].minute == r.minute && |Charges(p, sha, requests[..k + 1])| == n + 1
                 && calls[n].key == BuildKey(sha, r.pathType.value, r.ip, r.username, r.refreshToken)
                 && (r.pathType == Some(Login) ==> calls[n].limit == p.loginPerMinute)
                 && (r.pathType == Some(Refresh) ==> calls[n].limit == p.refreshPerMinute)
                 && (r.pathType == Some(Logout) ==> calls[n].limit == p.logoutPerMinute)
            else n <= |calls| && |Charges(p, sha, requests[..k + 1])| == n
  {
    hide BuildKey;
    var last := |requests| - 1;
    assert requests[..k + 1][..k] == requests[..k];
    if k == last {
      assert requests[..k + 1] == requests;
    } else {
      ChargedExactly(p, sha, requests[..last], k);
      assert requests[..last][..k] == requests[..k] && requests[..last][..k + 1] == requests[..k + 1];
    }
  }

  lemma {:induction false} ChargesKeepTheClock(p: Properties, sha: Sha, requests: seq<Request>)
    requires forall i, j | 0 <= i < j < |requests| :: requests[i].minute <= requests[j].minute
    ensures ClockNeverGoesBack(Charges(p, sha, requests))
    ensures forall i | 0 <= i < |Charges(p, sha, requests)| ::
              Charges(p, sha, requests)[i].minute <= requests[|requests| - 1].minute
  {
    if requests != [] {
      ChargesKeepTheClock(p, sha, requests[..|requests| - 1]);
    }
  }

  /** Shared budget: refresh and logout of one token from one address draw on one counter, so in
      a minute they pass together at most as often as the larger of the two limits allows. */
  lemma RefreshAndLogoutShareABudget(h: Hashing, p: Properties, sha: Sha, requests: seq<Request>,
      ip: Option<string>, token: string, minute: int)
    requires h.Valid()
    requires forall i, j | 0 <= i < j < |requests| :: requests[i].minute <= requests[j].minute
    requires p.refreshPerMinute < INT_MAX && p.logoutPerMinute < INT_MAX
    ensures var calls := Charges(p, sha, requests);
            && BuildKey(sha, Refresh, ip, "", token) == BuildKey(sha, Logout, ip, "", token)
            && Admitted(h, calls, BuildKey(sha, Refresh, ip, "", token), Some(minute), 0, |calls|)
               <= Max(0, Max(p.refreshPerMinute, p.logoutPerMinute))
  {
    var calls := Charges(p, sha, requests);
    var key := BuildKey(sha, Refresh, ip, "", token);
    forall i | 0 <= i < |calls| && calls[i].key == key
      ensures calls[i].limit <= Max(p.refreshPerMinute, p.logoutPerMinute)
    {
      RefreshKeysCarryTheirLimits(p, sha, requests, ip, token, i);
    }
    ChargesKeepTheClock(p, sha, requests);
    MinuteBound(h, calls, key, Max(0, Max(p.refreshPerMinute, p.logoutPerMinute)), minute);
  }
}

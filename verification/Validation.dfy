/** What commands and buttons may name: services, query windows, trace and assignment ids. */
module Validation {
  import opened Clock
  import opened Text
  import opened Wrappers

  const SERVICES: set<string> := {"gateway", "auth", "report", "online-judge", "post"}

  /** The canonical name of a known service or alias. */
  function NormalizeService(service: string): (r: Option<string>)
    ensures r.Some? ==> r.value in SERVICES
  {
    var name := ToLower(Trim(service));
    var canonical := if name == "judge" then "online-judge" else if name == "blog" then "post" else name;
    if canonical in SERVICES then Some(canonical) else None
  }

  predicate OpsConnected(service: string) {
    service in {"gateway", "auth", "report", "post"}
  }

  function ParseSince(label': string): Option<nat> {
    match Trim(label')
    case "5m" => Some(5 * MINUTE)
    case "15m" => Some(15 * MINUTE)
    case "30m" => Some(30 * MINUTE)
    case "1h" => Some(HOUR)
    case "3h" => Some(3 * HOUR)
    case "24h" => Some(24 * HOUR)
    case _ => None
  }

  predicate IdChar(c: char) {
    'a' <= c <= 'z' || 'A' <= c <= 'Z' || '0' <= c <= '9' || c in {'.', '_', ':', '-'}
  }

  predicate MatchesIdPattern(id: string) {
    1 <= |id| <= 128 && forall c | c in id :: IdChar(c)
  }

  predicate ValidId(id: string) {
    MatchesIdPattern(Trim(id))
  }
}

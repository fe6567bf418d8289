/** What a structured log row means for alerting: error codes, severity, decision and routing. */
module OpsLog {
  import opened Text
  import opened Wrappers

  // ----- Error codes -----

  datatype CodeInfo = CodeInfo(valid: bool, service: int, category: int, detail: int)

  const UNKNOWN_CODE := CodeInfo(false, 0, 0, 0)

  predicate KnownService(service: int) {
    1 <= service <= 6 || service == 9
  }

  predicate KnownCategory(category: int) {
    0 <= category <= 8
  }

  function ParseErrorCode(code: int): CodeInfo {
    if code == 60701 then CodeInfo(true, 6, 7, 1)
    else if code == 90701 then CodeInfo(true, 9, 7, 1)
    else if code == 90801 then CodeInfo(true, 9, 8, 1)
    else if code < 10000 || code > 99999 then UNKNOWN_CODE
    else
      var service, category := code / 10000, (code / 1000) % 10;
      var authCategory := (code / 100) % 10;
      if service == 2 && category == 1 && 1 <= authCategory <= 8
      then Checked(service, authCategory, code % 100)
      else Checked(service, category, code % 1000)
  }

  function Checked(service: int, category: int, detail: int): CodeInfo {
    CodeInfo(KnownService(service) && KnownCategory(category), service, category, detail)
  }

  /** A code by its parts, spelled out. */
  function Spelled(service: int, category: int, detail: int): int {
    service * 10000 + category * 1000 + detail
  }

  /** The short form of auth codes, and the three codes that are read in a way of their own. */
  predicate ShortForm(code: int) {
    || (21100 <= code <= 21899)
    || code == 60701 || code == 90701 || code == 90801
  }

  lemma ParsedFields(code: int)
    ensures var info := ParseErrorCode(code);
            info.valid ==> && KnownService(info.service) && KnownCategory(info.category) && 0 <= info.detail < 1000
                           && (if ShortForm(code) then info.detail < 100
                               else code == Spelled(info.service, info.category, info.detail))
    ensures 21100 <= code <= 21899 ==>
              var info := ParseErrorCode(code);
              code == 21000 + 100 * info.category + info.detail && info.service == 2 && info.category >= 1
  {
    if 10000 <= code <= 99999 {
      DecimalParts(code);
      AuthParts(code);
    }
  }

  /** The short forms of auth codes are those with a category in the third place. */
  lemma AuthParts(code: int)
    requires 10000 <= code <= 99999
    ensures code / 10000 == 2 && (code / 1000) % 10 == 1 && 1 <= (code / 100) % 10 <= 8 <==> 21100 <= code <= 21899
    ensures 21100 <= code <= 21899 ==> code == 21000 + 100 * ((code / 100) % 10) + code % 100
  {
    DecimalParts(code);
    assert code / 1000 == (code / 100) / 10;
    assert code == 1000 * (code / 1000) + 100 * ((code / 100) % 10) + code % 100;
  }

  lemma DecimalParts(code: int)
    requires 10000 <= code <= 99999
    ensures code == Spelled(code / 10000, (code / 1000) % 10, code % 1000)
  {
    assert code / 10000 == (code / 1000) / 10;
  }

  /** Two codes are read alike exactly when they are equal, or one is a short form and the other
      spells out its parts. */
  lemma CodesReadAlike(a: int, b: int)
    requires ParseErrorCode(a).valid
    ensures var i, j := ParseErrorCode(a), ParseErrorCode(b);
            i == j <==> || a == b
                        || (ShortForm(a) && b == Spelled(i.service, i.category, i.detail))
                        || (ShortForm(b) && a == Spelled(j.service, j.category, j.detail))
  {
    ParsedFields(a);
    ParsedFields(b);
    if ShortForm(a) { ShortFormsCollide(a); }
    if ShortForm(b) { ShortFormsCollide(b); }
    hide ParseErrorCode, KnownService, KnownCategory;
    if 21100 <= a <= 21899 && 21100 <= b <= 21899 {
      assert ParseErrorCode(a) == ParseErrorCode(b) ==> a == b;
    }
  }

  /** Every short form reads like another code, the one that spells out its parts. */
  lemma ShortFormsCollide(code: int)
    requires ShortForm(code)
    ensures var info := ParseErrorCode(code);
            var other := Spelled(info.service, info.category, info.detail);
            other != code && ParseErrorCode(other) == info
  {
    ParsedFields(code);
    var info := ParseErrorCode(code);
    SpelledIsRead(info.service, info.category, info.detail);
  }

  lemma SpelledIsRead(service: int, category: int, detail: int)
    requires KnownService(service) && KnownCategory(category) && 0 <= detail < 100
    ensures ParseErrorCode(Spelled(service, category, detail)) == CodeInfo(true, service, category, detail)
  {
    var code := Spelled(service, category, detail);
    assert code / 1000 == 10 * service + category && code % 1000 == detail;
    assert code / 10000 == service;
    assert code / 100 == 100 * service + 10 * category;
    assert (code / 100) % 10 == 0;
  }

  /** The codes that are read: five digits, of a known service, with a category of at most 8. */
  lemma ValidExactly(code: int)
    ensures ParseErrorCode(code).valid <==>
            10000 <= code <= 99999 && code / 10000 in {1, 2, 3, 4, 5, 6, 9} && (code / 1000) % 10 <= 8
  {
    if 10000 <= code <= 99999 {
      DecimalParts(code);
    }
  }

  // ----- Severity and decision -----

  /** A row by its level, its type, the code of its error and its status; each of the last two may
      be missing. */
  datatype Log = Log(level: string, logType: string, errorCode: Option<int>, status: Option<int>)

  datatype Severity = Low | Medium | High | Critical | Unknown

  datatype Reason = CriticalReason | ExternalSystem | OperationFailure | EventError | Http5xx | AggregateOnly

  datatype Decision = Decision(alert: bool, mention: bool, aggregateOnly: bool, severity: Severity, reason: Reason)

  predicate ExplicitlyCritical(code: int) {
    code in {18801, 21801, 28101, 38101, 38801, 48801, 54801, 68801, 90801, 98801}
  }

  predicate KnownHigh(code: int) {
    || code in {21701, 34801, 34802, 44701, 60701, 90701}
    || 44801 <= code <= 44807
    || 54701 <= code <= 54703
    || 54802 <= code <= 54805
    || 64801 <= code <= 64805
  }

  predicate IsCriticalText(text: string) {
    ToLower(text) == "critical"
  }

  predicate IsType(log: Log, logType: string) {
    ToLower(Trim(log.logType)) == logType
  }

  predicate ServerError(log: Log) {
    log.status.Some? && log.status.value >= 500
  }

  function Code(log: Log): int {
    if log.errorCode.Some? then log.errorCode.value else 0
  }

  function InfoOf(log: Log): CodeInfo {
    if Code(log) != 0 then ParseErrorCode(Code(log)) else UNKNOWN_CODE
  }

  function ResolveSeverity(log: Log, info: CodeInfo): Severity {
    if IsCriticalText(Trim(log.level)) then Critical
    else if ExplicitlyCritical(Code(log)) then Critical
    else if info.valid && info.category == 7 then High
    else if KnownHigh(Code(log)) then High
    else if IsType(log, "event_error") then High
    else if IsType(log, "api_error") && ServerError(log) then High
    else if IsType(log, "api_slow") then Medium
    else if IsType(log, "security") then Medium
    else if info.valid && 1 <= info.category <= 6 then Low
    else Unknown
  }

  function Decide(log: Log): Decision {
    var info := InfoOf(log);
    var severity := ResolveSeverity(log, info);
    var explicitCritical := severity == Critical;
    var externalSystem := info.valid && info.category == 7;
    var highCode := KnownHigh(Code(log));
    var alert := || explicitCritical || IsType(log, "event_error") || (IsType(log, "api_error") && ServerError(log))
                 || externalSystem || highCode;
    var reason := if explicitCritical then CriticalReason
                  else if externalSystem then ExternalSystem
                  else if highCode then OperationFailure
                  else if IsType(log, "event_error") then EventError
                  else if ServerError(log) then Http5xx
                  else AggregateOnly;
    Decision(alert, alert && severity == Critical, !alert, severity, reason)
  }

  /** The decision and the severity, computed apart, agree: a row alerts exactly when it is high or
      critical, and mentions exactly when it is critical. Every alert has a reason; a row that does
      not alert may still carry the reason of a server error. */
  lemma DecisionFollowsSeverity(log: Log)
    ensures var d := Decide(log);
            && (d.alert <==> d.severity in {High, Critical})
            && (d.mention <==> d.severity == Critical)
            && (d.aggregateOnly <==> !d.alert)
            && (d.alert ==> d.reason != AggregateOnly)
            && (!d.alert ==> d.reason == if ServerError(log) then Http5xx else AggregateOnly)
            && (d.reason == CriticalReason <==> d.severity == Critical)
  {
  }

  /** Each severity by its own condition on the fields of the row, whatever order they are tried in. */
  lemma SeverityMeaning(log: Log)
    ensures var d, code := Decide(log), if log.errorCode.Some? then log.errorCode.value else 0;
            var info, logType := ParseErrorCode(code), ToLower(Trim(log.logType));
            var critical := ToLower(Trim(log.level)) == "critical"
                            || code in {18801, 21801, 28101, 38101, 38801, 48801, 54801, 68801, 90801, 98801};
            var high := || (info.valid && info.category == 7)
                        || code in {21701, 34801, 34802, 44701, 60701, 90701}
                        || 44801 <= code <= 44807 || 54701 <= code <= 54703 || 54802 <= code <= 54805
                        || 64801 <= code <= 64805
                        || logType == "event_error"
                        || (logType == "api_error" && log.status.Some? && log.status.value >= 500);
            && (d.severity == Critical <==> critical)
            && (d.severity == High <==> !critical && high)
            && (d.severity == Medium <==> !critical && !high && (logType == "api_slow" || logType == "security"))
            && (d.severity == Low <==> && !critical && !high && logType != "api_slow" && logType != "security"
                                       && info.valid && 1 <= info.category <= 6)
            && (d.alert <==> critical || high)
            && (d.mention <==> critical)
  {
    assert !ParseErrorCode(0).valid;
    hide ToLower, Trim, ParseErrorCode;
    DecisionFollowsSeverity(log);
  }

  // ----- The alert made of a row, and its route -----

  function SeverityText(s: Severity): string {
    match s
    case Low => "LOW"
    case Medium => "MEDIUM"
    case High => "HIGH"
    case Critical => "CRITICAL"
    case Unknown => "UNKNOWN"
  }

  /** An alert by what routing reads; the row is missing for alerts of other kinds. */
  datatype Alert = Alert(severity: string, fromV2: bool, log: Option<Log>, decided: Severity)

  function MakeAlert(log: Log): Option<Alert> {
    var d := Decide(log);
    if !d.alert then None else Some(Alert(SeverityText(d.severity), true, Some(log), d.severity))
  }

  predicate IsCriticalAlert(a: Alert) {
    if IsCriticalText(a.severity) || a.severity == "P0" then true
    else if a.log.Some? then IsCriticalText(a.log.value.level)
    else if a.fromV2 then IsCriticalText(SeverityText(a.decided))
    else false
  }

  datatype Route = CriticalChannel(mention: bool) | GeneralChannel

  function RouteOf(a: Alert): Route {
    if IsCriticalAlert(a) then CriticalChannel(IsCriticalAlert(a)) else GeneralChannel
  }

  /** An alert made of a row goes to the critical channel, with a mention, exactly when the decision
      asked for one; else to the general channel. */
  lemma RouteFollowsDecision(log: Log)
    ensures MakeAlert(log).Some? <==> Decide(log).severity in {High, Critical}
    ensures MakeAlert(log).Some? ==> MakeAlert(log).value.log == Some(log) && MakeAlert(log).value.fromV2
    ensures MakeAlert(log).Some? ==>
              RouteOf(MakeAlert(log).value) == if Decide(log).mention then CriticalChannel(true) else GeneralChannel
  {
    DecisionFollowsSeverity(log);
    SeverityTexts();
    if IsCriticalText(log.level) {
      CriticalHasNoSpace(log.level);
    }
    hide IsCriticalText, ParseErrorCode, KnownHigh, ExplicitlyCritical, IsType;
  }

  /** Any alert goes to the critical channel exactly if it says that it is critical, in its own severity, in
      the level of its row, or, without a row, in what was decided. */
  lemma RouteMeaning(a: Alert)
    ensures RouteOf(a) == CriticalChannel(true) <==>
            || ToLower(a.severity) == "critical" || a.severity == "P0"
            || (a.log.Some? && ToLower(a.log.value.level) == "critical")
            || (a.log.None? && a.fromV2 && a.decided == Critical)
    ensures RouteOf(a) == CriticalChannel(true) || RouteOf(a) == GeneralChannel
  {
    SeverityTexts();
    hide SeverityText, ToLower;
  }

  lemma SeverityTextsDiffer(s: Severity, s': Severity)
    ensures SeverityText(s) == SeverityText(s') <==> s == s'
  {
    assert s != s' ==> |SeverityText(s)| != |SeverityText(s')|;
  }

  lemma SeverityTexts()
    ensures forall s :: IsCriticalText(SeverityText(s)) <==> s == Critical
    ensures forall s :: SeverityText(s) != "P0"
  {
    CriticalFolds();
    hide ToLower;
    forall s | s != Critical ensures !IsCriticalText(SeverityText(s)) {
      assert |ToLower(SeverityText(s))| == |SeverityText(s)| != 8;
    }
    forall s ensures SeverityText(s) != "P0" {
      assert |SeverityText(s)| > 2;
    }
  }

  lemma CriticalFolds()
    ensures ToLower("CRITICAL") == "critical"
  {
    var folded := ToLower("CRITICAL");
    hide ToLower;
    assert folded == "critical";
  }

  lemma CriticalHasNoSpace(level: string)
    requires IsCriticalText(level)
    ensures Trim(level) == level
  {
    var lower := ToLower(level);
    assert lower[0] == 'c' && lower[|level| - 1] == 'l';
    TrimmedIsFixed(level);
  }
}

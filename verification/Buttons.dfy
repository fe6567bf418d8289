/** The ids of the buttons under an alert: printed when it is posted, parsed when one is pressed. */
module Buttons {
  import opened Text
  import opened Validation
  import opened Wrappers

  const PREFIX := "ops:v1"
  const MAX_ID_LENGTH := 100

  datatype Action =
    | TraceAction(traceId: string)
    | LogsAction(service: string, mode: string, since: string, limit: int)

  function ByteLength(s: string): nat {
    if s == "" then 0
    else
      var code := s[0] as int;
      ByteLength(s[1..]) + if code < 0x80 then 1 else if code < 0x800 then 2 else if code < 0x1_0000 then 3 else 4
  }

  // ----- Printing -----

  function TraceButtonId(traceId: string): Option<string> {
    var id := Trim(traceId);
    if !ValidId(id) then None
    else
      var customId := PREFIX + ":trace:" + id;
      if ByteLength(customId) > MAX_ID_LENGTH then None else Some(customId)
  }

  function ServiceErrorsButtonId(service: string): Option<string> {
    var normalized := NormalizeService(service);
    if normalized.None? || !OpsConnected(normalized.value) then None
    else
      var customId := PREFIX + ":logs:" + normalized.value + ":errors:30m:10";
      if ByteLength(customId) > MAX_ID_LENGTH then None else Some(customId)
  }

  // ----- Parsing -----

  predicate IsDigit(c: char) {
    '0' <= c <= '9'
  }

  function Digits(s: string): Option<nat> {
    if s == "" || !IsDigit(s[|s| - 1]) then None
    else
      var last := s[|s| - 1] as int - '0' as int;
      if |s| == 1 then Some(last)
      else
        var before := Digits(s[..|s| - 1]);
        if before.None? then None else Some(10 * before.value + last)
  }

  /** A decimal with an optional sign that fits 64 bits. */
  function ParseInt(s: string): Option<int> {
    var signed := s != "" && (s[0] == '-' || s[0] == '+');
    var digits := Digits(if signed then s[1..] else s);
    if digits.None? then None
    else
      var size: int := digits.value;
      var n := if signed && s[0] == '-' then -size else size;
      if -0x8000_0000_0000_0000 <= n < 0x8000_0000_0000_0000 then Some(n) else None
  }

  function OpsLimit(n: int): int {
    if n == 5 || n == 10 then n else 20
  }

  function Parse(raw: string): Option<Action> {
    var customId := Trim(raw);
    if customId == "" || ByteLength(customId) > MAX_ID_LENGTH then None
    else
      var parts := Split(customId, ':');
      if |parts| < 3 || Join(parts[..2], ':') != PREFIX then None
      else if parts[2] == "trace" then ParseTrace(parts)
      else if parts[2] == "logs" then ParseLogs(parts)
      else None
  }

  function ParseTrace(parts: seq<string>): (r: Option<Action>)
    ensures r.Some? ==> r.value.TraceAction?
  {
    if |parts| != 4 || !ValidId(parts[3]) then None else Some(TraceAction(Trim(parts[3])))
  }

  function ParseLogs(parts: seq<string>): (r: Option<Action>)
    ensures r.Some? ==> r.value.LogsAction?
  {
    if |parts| != 7 then None
    else
      var service := NormalizeService(parts[3]);
      if service.None? || !OpsConnected(service.value) then None
      else if parts[4] != "errors" then None
      else
        var since := Trim(parts[5]);
        var limit := ParseInt(Trim(parts[6]));
        if ParseSince(since).None? || limit.None? || limit.value <= 0 then None
        else Some(LogsAction(service.value, "errors", since, OpsLimit(limit.value)))
  }

  // ----- Round trips -----

  lemma {:induction false} AsciiLength(s: string)
    requires forall c | c in s :: c < '\U{0080}'
    ensures ByteLength(s) == |s|
  {
    if s != "" {
      assert s[0] in s && forall c | c in s[1..] :: c in s;
      AsciiLength(s[1..]);
    }
  }

  lemma AcceptedTraces(traceId: string)
    ensures TraceButtonId(traceId).Some? <==> ValidId(traceId) && |Trim(traceId)| <= 87
  {
    var id := Trim(traceId);
    TrimTrims(traceId);
    if MatchesIdPattern(id) {
      assert forall c | c in id :: IdChar(c);
      AsciiLength(PREFIX + ":trace:" + id);
    }
  }

  lemma PrintedTraceSplits(id: string)
    ensures Split(PREFIX + ":trace:" + id, ':') == ["ops", "v1", "trace"] + Split(id, ':')
  {
    assert PREFIX + ":trace:" + id == "ops" + [':'] + ("v1" + [':'] + ("trace" + [':'] + id));
    SplitFirst("ops", "v1" + [':'] + ("trace" + [':'] + id), ':');
    SplitFirst("v1", "trace" + [':'] + id, ':');
    SplitFirst("trace", id, ':');
  }

  lemma PrefixJoins(parts: seq<string>)
    requires |parts| >= 2 && parts[0] == "ops" && parts[1] == "v1"
    ensures Join(parts[..2], ':') == PREFIX
  {
    assert parts[..2] == ["ops", "v1"];
    assert ["ops", "v1"][1..] == ["v1"];
  }

  /** A printed trace button comes back as the trace it was printed for exactly when the id has no
      colon; with one it is refused, although printing accepts it. */
  lemma TraceRoundTrip(traceId: string)
    requires TraceButtonId(traceId).Some?
    ensures var parsed := Parse(TraceButtonId(traceId).value);
            && (parsed == Some(TraceAction(Trim(traceId))) <==> ':' !in Trim(traceId))
            && (':' in Trim(traceId) ==> parsed == None)
  {
    var id := Trim(traceId);
    TrimTrims(traceId);
    var customId := PREFIX + ":trace:" + id;
    assert MatchesIdPattern(id);
    assert IdChar(id[|id| - 1]);
    assert customId[0] == 'o' && customId[|customId| - 1] == id[|id| - 1];
    assert Trimmed(customId);
    TrimmedIsFixed(customId);
    PrintedTraceSplits(id);
    PrefixJoins(Split(customId, ':'));
    SplitCount(id, ':');
    if ':' !in id {
      SplitPlain(id, ':');
    }
  }

  /** Whatever parses as a trace button names a trace that prints, and prints to the same action. */
  lemma ParsedTraceReprints(raw: string)
    requires Parse(raw).Some? && Parse(raw).value.TraceAction?
    ensures var printed := TraceButtonId(Parse(raw).value.traceId);
            printed.Some? && Parse(printed.value) == Parse(raw)
  {
    hide ParseLogs, Trim, ByteLength, Split, ValidId, TraceButtonId;
    var parts := Split(Trim(raw), ':');
    assert Parse(raw) == ParseTrace(parts);
    var id := Trim(parts[3]);
    TrimTrims(parts[3]);
    PartsHaveNoSeparator(Trim(raw), ':');
    assert parts[3] in parts;
    ByteLengthBounds(Trim(raw));
    TraceIsShort(Trim(raw));
    ValidOnceTrimmed(parts[3]);
    AcceptedTraces(id);
    TraceRoundTrip(id);
  }

  lemma ValidOnceTrimmed(id: string)
    requires ValidId(id)
    ensures ValidId(Trim(id))
  {
    TrimTrims(id);
  }

  lemma TraceIsShort(customId: string)
    requires |customId| <= MAX_ID_LENGTH && |Split(customId, ':')| == 4
    requires Join(Split(customId, ':')[..2], ':') == PREFIX && Split(customId, ':')[2] == "trace"
    ensures |Split(customId, ':')[3]| <= 87
  {
    hide Split;
    var parts := Split(customId, ':');
    PartsAreShort(customId, ':');
    assert parts[1..][1..][1..] == [parts[3]] && parts[1..][1..] == ["trace", parts[3]]
             && parts[1..] == [parts[1], "trace", parts[3]];
    assert TotalLength([parts[3]]) == |parts[3]|;
    assert TotalLength(["trace", parts[3]]) == 5 + |parts[3]| by { assert ["trace", parts[3]][1..] == [parts[3]]; }
    assert Join(parts[..2], ':') == parts[0] + [':'] + parts[1] by {
      assert parts[..2] == [parts[0]] + [parts[1]];
      JoinPeels(parts[0], [parts[1]], ':');
    }
    assert |parts[0]| + 1 + |parts[1]| == 6;
  }

  lemma {:induction false} PartsHaveNoSeparator(s: string, sep: char)
    ensures forall part | part in Split(s, sep) :: sep !in part
  {
    if s != "" {
      PartsHaveNoSeparator(s[1..], sep);
      var rest := Split(s[1..], sep);
      assert rest[0] in rest;
      assert forall part | part in rest[1..] :: part in rest;
    }
  }

  function TotalLength(parts: seq<string>): nat {
    if parts == [] then 0 else |parts[0]| + TotalLength(parts[1..])
  }

  lemma {:induction false} PartsAreShort(s: string, sep: char)
    ensures TotalLength(Split(s, sep)) + |Split(s, sep)| == |s| + 1
  {
    if s != "" {
      PartsAreShort(s[1..], sep);
    }
  }

  /** How many characters of a text have a code from `code` on. */
  function From(s: string, code: nat): nat {
    if s == "" then 0 else From(s[1..], code) + if s[0] as int >= code then 1 else 0
  }

  /** A character takes one byte, and one more from each of three codes on. */
  lemma {:induction false} ByteLengthBounds(s: string)
    ensures ByteLength(s) == |s| + From(s, 0x80) + From(s, 0x800) + From(s, 0x1_0000)
    ensures |s| <= ByteLength(s)
  {
    if s != "" { ByteLengthBounds(s[1..]); }
  }

  /** A number is read with the sign before it. */
  lemma SignedNumbers(digits: string)
    requires Digits(digits).Some? && Digits(digits).value < 0x8000_0000_0000_0000
    ensures ParseInt(digits) == Some(Digits(digits).value) && ParseInt("+" + digits) == Some(Digits(digits).value)
    ensures ParseInt("-" + digits).Some? && ParseInt("-" + digits).value + Digits(digits).value == 0
  {
    FirstIsDigit(digits);
    assert ("+" + digits)[1..] == digits && ("-" + digits)[1..] == digits;
  }

  lemma {:induction false} FirstIsDigit(s: string)
    requires Digits(s).Some?
    ensures s != "" && IsDigit(s[0])
  {
    if |s| > 1 { FirstIsDigit(s[..|s| - 1]); }
  }

  /** Whatever parses as a logs button asks for the errors of a connected service, in a window that queries
      have, five, ten or twenty of them. */
  lemma ParsedLogsAreSafe(raw: string)
    requires Parse(raw).Some? && Parse(raw).value.LogsAction?
    ensures var action := Parse(raw).value;
            && action.service in {"gateway", "auth", "report", "post"} && action.mode == "errors"
            && action.since in {"5m", "15m", "30m", "1h", "3h", "24h"} && action.limit in {5, 10, 20}
  {
    hide Split, Join, ByteLength, ParseInt, NormalizeService, Digits;
    var parts := Split(Trim(raw), ':');
    assert Parse(raw) == ParseLogs(parts);
    TrimTrims(parts[5]);
    hide Trim;
  }

  /** Every service a button is printed for comes back under its canonical name, with the fixed mode,
      window and limit. */
  lemma ServiceErrorsRoundTrip(service: string)
    ensures ServiceErrorsButtonId(service).Some? <==>
            NormalizeService(service).Some? && NormalizeService(service).value != "online-judge"
    ensures ServiceErrorsButtonId(service).Some? ==>
              Parse(ServiceErrorsButtonId(service).value) ==
              Some(LogsAction(NormalizeService(service).value, "errors", "30m", 10))
  {
    var normalized := NormalizeService(service);
    if normalized.Some? && OpsConnected(normalized.value) {
      var name := normalized.value;
      PrintedService(name);
    }
  }

  lemma PrintedService(name: string)
    requires OpsConnected(name)
    ensures var customId := PREFIX + ":logs:" + name + ":errors:30m:10";
            ByteLength(customId) <= MAX_ID_LENGTH && Parse(customId) == Some(LogsAction(name, "errors", "30m", 10))
  {
    hide Split, Join, Trim, ByteLength, ParseLogs, ParseTrace, Parse;
    var customId := PREFIX + ":logs:" + name + ":errors:30m:10";
    PrintedIsTrimmed(name);
    PrintedIsShort(name);
    PrintedLogsSplit(name);
    var parts := Split(customId, ':');
    LogsPartsParse(customId, parts, name);
  }

  lemma PrintedIsTrimmed(name: string)
    ensures Trim(PREFIX + ":logs:" + name + ":errors:30m:10") == PREFIX + ":logs:" + name + ":errors:30m:10"
  {
    var customId := PREFIX + ":logs:" + name + ":errors:30m:10";
    assert customId[0] == 'o' && customId[|customId| - 1] == '0';
    TrimmedIsFixed(customId);
  }

  lemma LogsPartsParse(customId: string, parts: seq<string>, name: string)
    requires customId != "" && Trim(customId) == customId && ByteLength(customId) <= MAX_ID_LENGTH
    requires parts == Split(customId, ':') && |parts| == 7 && OpsConnected(name)
    requires parts[0] == "ops" && parts[1] == "v1" && parts[2] == "logs" && parts[3] == name
    requires parts[4] == "errors" && parts[5] == "30m" && parts[6] == "10"
    ensures Parse(customId) == Some(LogsAction(name, "errors", "30m", 10))
  {
    hide Split, Join, Trim, ByteLength, ParseLogs, ParseTrace, OpsConnected;
    PrefixJoins(parts);
    PrintedLogsParse(name, parts);
  }

  lemma PrintedLogsSplit(name: string)
    requires ':' !in name
    ensures Split(PREFIX + ":logs:" + name + ":errors:30m:10", ':') == ["ops", "v1", "logs", name] + ["errors", "30m",
              "10"]
  {
    hide Split;
    FixedTailSplits();
    var tail := "errors:30m:10";
    var withName := name + [':'] + tail;
    assert PREFIX + ":logs:" + name + ":errors:30m:10" == "ops" + [':'] + ("v1" + [':'] + ("logs" + [':'] + withName));
    SplitFirst("ops", "v1" + [':'] + ("logs" + [':'] + withName), ':');
    SplitFirst("v1", "logs" + [':'] + withName, ':');
    SplitFirst("logs", withName, ':');
    SplitFirst(name, tail, ':');
    var rest := Split(tail, ':');
    assert ["ops"] + (["v1"] + (["logs"] + ([name] + rest))) == ["ops", "v1", "logs", name] + rest;
  }

  lemma FixedTailSplits()
    ensures Split("errors:30m:10", ':') == ["errors", "30m", "10"]
  {
    assert "errors:30m:10" == "errors" + [':'] + ("30m" + [':'] + "10");
    SplitFirst("errors", "30m" + [':'] + "10", ':');
    SplitFirst("30m", "10", ':');
    SplitPlain("10", ':');
  }

  lemma PrintedIsShort(name: string)
    requires OpsConnected(name)
    ensures ByteLength(PREFIX + ":logs:" + name + ":errors:30m:10") <= MAX_ID_LENGTH
  {
    AsciiLength(PREFIX + ":logs:" + name + ":errors:30m:10");
  }

  lemma PrintedLogsParse(name: string, parts: seq<string>)
    requires OpsConnected(name) && |parts| == 7 && parts[3] == name
    requires parts[4] == "errors" && parts[5] == "30m" && parts[6] == "10"
    ensures ParseLogs(parts) == Some(LogsAction(name, "errors", "30m", 10))
  {
    hide Trim, Digits, ToLower, ParseInt, NormalizeService, ParseSince;
    CanonicalService(name);
    FixedPartsParse();
  }

  lemma FixedPartsParse()
    ensures Trim("30m") == "30m" && Trim("10") == "10"
    ensures ParseSince("30m").Some? && ParseInt("10") == Some(10)
  {
    hide Trim, Digits, ParseInt;
    TrimmedIsFixed("30m");
    TrimmedIsFixed("10");
    TenParses();
  }

  lemma CanonicalService(name: string)
    requires OpsConnected(name)
    ensures NormalizeService(name) == Some(name)
  {
    hide Trim, ToLower;
    assert Trimmed(name);
    TrimmedIsFixed(name);
    LowerCaseService(name);
  }

  lemma TenParses()
    ensures ParseInt("10") == Some(10)
  {
    assert "10"[..1] == "1";
    assert Digits("1") == Some(1);
  }

  lemma LowerCaseService(name: string)
    requires OpsConnected(name)
    ensures ToLower(name) == name
  {
  }
}

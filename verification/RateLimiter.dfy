/** The fixed-window conservative Count-Min limiter behind the auth rate limit.

    `Cell` gives the value of one counter after a history of counted keys, `Admits` the answer
    of one call after a trace of calls. The class works on the real 4 x slots array and is
    proved equal to both; the theorems about whole traces are lemmas over them. */
module RateLimiter {
  import opened Wrappers

  const HASH_COUNT := 4
  const INT_BYTES := 4
  const MAX_COUNTER_SLOTS := 1_000_000
  const INT_MAX := 0x7fff_ffff

  type Int32 = x: int | -0x8000_0000 <= x <= 0x7fff_ffff
  type Byte = x: int | 0 <= x < 256
  type Sha256 = s: seq<Byte> | |s| == 32 witness seq(32, i => 0)

  /** What fixes the bucket of a key: the digest and the number of slots in a row. */
  datatype Hashing = Hashing(digest: string -> Sha256, slots: int) {
    predicate Valid() {
      1 <= slots <= MAX_COUNTER_SLOTS
    }

    function Bucket(key: string, row: int): (slot: int)
      requires Valid() && 0 <= row < HASH_COUNT
      ensures 0 <= slot < slots
    {
      BigEndian(digest(key)[row * INT_BYTES..(row + 1) * INT_BYTES]) % slots
    }
  }

  function BigEndian(bytes: seq<Byte>): nat {
    if bytes == [] then 0 else 256 * BigEndian(bytes[..|bytes| - 1]) + bytes[|bytes| - 1]
  }

  /** Four bytes make an unsigned 32-bit value: the `Long` accumulator never turns negative. */
  lemma {:induction false} BigEndianFits(bytes: seq<Byte>)
    requires |bytes| <= INT_BYTES
    ensures BigEndian(bytes) < 0x1_0000_0000
    ensures |bytes| <= 1 ==> BigEndian(bytes) < 0x100
    ensures |bytes| <= 2 ==> BigEndian(bytes) < 0x1_0000
    ensures |bytes| <= 3 ==> BigEndian(bytes) < 0x100_0000
  {
    if bytes != [] {
      BigEndianFits(bytes[..|bytes| - 1]);
    }
  }

  // ----- The counters after a history of counted keys -----

  function Min(a: int, b: int): int { if a <= b then a else b }
  function Max(a: int, b: int): int { if a <= b then b else a }

  /** The counter at (row, slot) after the keys of `history` were counted, oldest first. */
  function Cell(h: Hashing, history: seq<string>, row: int, slot: int): (c: Int32)
    requires h.Valid() && 0 <= row < HASH_COUNT
    ensures 0 <= c
    decreases |history|, 0
  {
    if history == [] then 0
    else
      var before, key := history[..|history| - 1], history[|history| - 1];
      var c := Cell(h, before, row, slot);
      if h.Bucket(key, row) == slot then Max(c, NextEstimate(h, before, key)) else c
  }

  function Estimate(h: Hashing, history: seq<string>, key: string): (c: Int32)
    requires h.Valid()
    ensures 0 <= c
    decreases |history|, 2
  {
    MinOfRows(h, history, key, HASH_COUNT)
  }

  function MinOfRows(h: Hashing, history: seq<string>, key: string, rows: int): (c: Int32)
    requires h.Valid() && 1 <= rows <= HASH_COUNT
    ensures 0 <= c
    decreases |history|, 1, rows
  {
    var last := Cell(h, history, rows - 1, h.Bucket(key, rows - 1));
    if rows == 1 then last else Min(MinOfRows(h, history, key, rows - 1), last)
  }

  function NextEstimate(h: Hashing, history: seq<string>, key: string): (c: Int32)
    requires h.Valid()
    ensures 0 <= c
    decreases |history|, 3
  {
    var current := Estimate(h, history, key);
    if current == INT_MAX then INT_MAX else current + 1
  }

  lemma EstimateIsMinimum(h: Hashing, history: seq<string>, key: string)
    requires h.Valid()
    ensures forall row | 0 <= row < HASH_COUNT ::
              Estimate(h, history, key) <= Cell(h, history, row, h.Bucket(key, row))
    ensures exists row | 0 <= row < HASH_COUNT ::
              Estimate(h, history, key) == Cell(h, history, row, h.Bucket(key, row))
  {
    var c := row requires 0 <= row < HASH_COUNT => Cell(h, history, row, h.Bucket(key, row));
    assert MinOfRows(h, history, key, 1) == c(0);
    assert MinOfRows(h, history, key, 2) == Min(c(0), c(1));
    assert MinOfRows(h, history, key, 3) == Min(Min(c(0), c(1)), c(2));
    assert MinOfRows(h, history, key, 4) == Min(Min(Min(c(0), c(1)), c(2)), c(3));
  }

  function Count(history: seq<string>, key: string): nat {
    multiset(history)[key]
  }

  lemma CellAfter(h: Hashing, history: seq<string>, key: string, row: int, slot: int)
    requires h.Valid() && 0 <= row < HASH_COUNT
    ensures Cell(h, history + [key], row, slot) ==
            if h.Bucket(key, row) == slot
            then Max(Cell(h, history, row, slot), NextEstimate(h, history, key))
            else Cell(h, history, row, slot)
  {
    assert (history + [key])[..|history|] == history;
  }

  lemma CountLast(history: seq<string>, key: string)
    requires history != []
    ensures Count(history, key) ==
            Count(history[..|history| - 1], key) + (if history[|history| - 1] == key then 1 else 0)
  {
    assert history == history[..|history| - 1] + [history[|history| - 1]];
  }

  /** The number of counted keys that fall in a slot: one counter of a plain Count-Min sketch. */
  function Hits(h: Hashing, history: seq<string>, row: int, slot: int): nat
    requires h.Valid() && 0 <= row < HASH_COUNT
  {
    if history == [] then 0
    else Hits(h, history[..|history| - 1], row, slot) +
         if h.Bucket(history[|history| - 1], row) == slot then 1 else 0
  }

  /** Never under-counts: whatever other keys were counted, no row of a key is below its count. */
  lemma {:induction false} NeverUnderCounts(h: Hashing, history: seq<string>, key: string)
    requires h.Valid()
    ensures forall row | 0 <= row < HASH_COUNT ::
              Cell(h, history, row, h.Bucket(key, row)) >= Min(Count(history, key), INT_MAX)
    ensures Estimate(h, history, key) >= Min(Count(history, key), INT_MAX)
  {
    if history != [] {
      NeverUnderCounts(h, history[..|history| - 1], key);
      CountLast(history, key);
    }
    EstimateIsMinimum(h, history, key);
  }

  /** Never above a plain Count-Min sketch: a counter is at most the keys that hash to it. */
  lemma {:induction false} AtMostPlainSketch(h: Hashing, history: seq<string>, row: int, slot: int)
    requires h.Valid() && 0 <= row < HASH_COUNT
    ensures Cell(h, history, row, slot) <= Hits(h, history, row, slot)
  {
    if history != [] {
      var before, key := history[..|history| - 1], history[|history| - 1];
      AtMostPlainSketch(h, before, row, slot);
      EstimateIsMinimum(h, before, key);
    }
  }

  /** Some row gives the key a slot that no other key of the history uses. */
  ghost predicate Isolated(h: Hashing, history: seq<string>, key: string)
    requires h.Valid()
  {
    exists row | 0 <= row < HASH_COUNT :: IsolatedInRow(h, history, key, row)
  }

  ghost predicate IsolatedInRow(h: Hashing, history: seq<string>, key: string, row: int)
    requires h.Valid() && 0 <= row < HASH_COUNT
  {
    forall other | other in history && other != key :: h.Bucket(other, row) != h.Bucket(key, row)
  }

  lemma {:induction false} IsolatedHits(h: Hashing, history: seq<string>, key: string, row: int)
    requires h.Valid() && 0 <= row < HASH_COUNT && IsolatedInRow(h, history, key, row)
    ensures Hits(h, history, row, h.Bucket(key, row)) == Count(history, key)
  {
    if history != [] {
      var last := history[|history| - 1];
      assert last in history;
      assert forall other | other in history[..|history| - 1] :: other in history;
      IsolatedHits(h, history[..|history| - 1], key, row);
      CountLast(history, key);
    }
  }

  /** A key isolated in one row is counted exactly, up to saturation. */
  lemma IsolatedIsExact(h: Hashing, history: seq<string>, key: string)
    requires h.Valid() && Isolated(h, history, key)
    ensures Estimate(h, history, key) == Min(Count(history, key), INT_MAX)
  {
    var row :| 0 <= row < HASH_COUNT && IsolatedInRow(h, history, key, row);
    IsolatedHits(h, history, key, row);
    AtMostPlainSketch(h, history, row, h.Bucket(key, row));
    NeverUnderCounts(h, history, key);
    EstimateIsMinimum(h, history, key);
  }

  // ----- Traces of calls -----

  /** One call of `allow`, with the epoch minute its clock returned. */
  datatype Call = Call(key: string, limit: Int32, minute: int)

  /** The window in force and the keys counted in it since the counters were last cleared. */
  datatype Window = Window(minute: Option<int>, history: seq<string>)

  function Counted(w: Window, call: Call): Window {
    Window(Some(call.minute), (if w.minute == Some(call.minute) then w.history else []) + [call.key])
  }

  /** The window after a trace: only calls with a positive limit are counted. */
  function After(calls: seq<Call>): Window {
    if calls == [] then Window(None, [])
    else
      var before, call := After(calls[..|calls| - 1]), calls[|calls| - 1];
      if call.limit <= 0 then before else Counted(before, call)
  }

  /** The keys that share the counters with this call. */
  function HistoryFor(w: Window, call: Call): seq<string> {
    if w.minute == Some(call.minute) then w.history else []
  }

  predicate Allows(h: Hashing, w: Window, call: Call)
    requires h.Valid()
  {
    call.limit > 0 && NextEstimate(h, HistoryFor(w, call), call.key) <= call.limit
  }

  /** The answer to call `i` of a trace. */
  predicate Admits(h: Hashing, calls: seq<Call>, i: int)
    requires h.Valid() && 0 <= i < |calls|
  {
    Allows(h, After(calls[..i]), calls[i])
  }

  predicate ClockNeverGoesBack(calls: seq<Call>) {
    forall i, j | 0 <= i < j < |calls| :: calls[i].minute <= calls[j].minute
  }

  /** How many of the calls `lo..hi` are for the key, in the minute if one is given, and admitted. */
  function Admitted(h: Hashing, calls: seq<Call>, key: string, minute: Option<int>, lo: int, hi: int): nat
    requires h.Valid() && 0 <= lo <= hi <= |calls|
    decreases hi
  {
    if lo == hi then 0
    else
      Admitted(h, calls, key, minute, lo, hi - 1) +
      if calls[hi - 1].key == key && (minute.None? || calls[hi - 1].minute == minute.value) && Admits(h, calls, hi - 1)
      then 1 else 0
  }

  ghost predicate LimitedTo(calls: seq<Call>, key: string, limit: int) {
    forall i | 0 <= i < |calls| && calls[i].key == key :: calls[i].limit <= limit
  }

  /** An admitted call is at most the `limit`-th counted call for its key in the window. */
  lemma AllowedIsWithinLimit(h: Hashing, w: Window, call: Call)
    requires h.Valid() && Allows(h, w, call) && call.limit < INT_MAX
    ensures Count(HistoryFor(w, call), call.key) < call.limit
  {
    NeverUnderCounts(h, HistoryFor(w, call), call.key);
  }

  lemma CountCounted(w: Window, call: Call, key: string)
    ensures Count(Counted(w, call).history, key) ==
            Count(HistoryFor(w, call), key) + if call.key == key then 1 else 0
  {
    var history := Counted(w, call).history;
    CountLast(history, key);
    assert history[..|history| - 1] == HistoryFor(w, call);
  }

  lemma AfterOneMore(calls: seq<Call>, n: int)
    requires 0 < n <= |calls|
    ensures After(calls[..n]) ==
            if calls[n - 1].limit <= 0 then After(calls[..n - 1]) else Counted(After(calls[..n - 1]), calls[n - 1])
  {
    assert calls[..n][..n - 1] == calls[..n - 1];
  }

  /** The window in force is the minute of an earlier call. */
  lemma {:induction false} WindowIsPast(calls: seq<Call>, n: int)
    requires 0 <= n <= |calls|
    requires ClockNeverGoesBack(calls)
    ensures After(calls[..n]).minute.Some? && n < |calls| ==> After(calls[..n]).minute.value <= calls[n].minute
    ensures After(calls[..n]).minute.Some? && n > 0 ==> After(calls[..n]).minute.value <= calls[n - 1].minute
  {
    if n > 0 {
      AfterOneMore(calls, n);
      WindowIsPast(calls, n - 1);
    }
  }

  lemma NothingAdmitted(h: Hashing, calls: seq<Call>, key: string, minute: int)
    requires h.Valid()
    ensures Admitted(h, calls, key, Some(minute), 0, 0) == 0
  {
  }

  lemma AdmittedOneMore(h: Hashing, calls: seq<Call>, key: string, minute: int, n: int)
    requires h.Valid() && 0 < n <= |calls|
    ensures Admitted(h, calls, key, Some(minute), 0, n) ==
            Admitted(h, calls, key, Some(minute), 0, n - 1) +
            if calls[n - 1].key == key && calls[n - 1].minute == minute
                && Allows(h, After(calls[..n - 1]), calls[n - 1]) then 1 else 0
    ensures Allows(h, After(calls[..n - 1]), calls[n - 1]) ==> calls[n - 1].limit > 0
  {
    hide After;
  }

  /** The bounds on what a minute has admitted, by the window in force. */
  predicate AdmittedFits(admitted: nat, limit: int, w: Window, key: string, minute: int) {
    && admitted <= limit
    && (w.minute == Some(minute) ==> admitted <= Count(w.history, key))
    && (w.minute.None? || w.minute.value < minute ==> admitted == 0)
  }

  lemma OneMoreFits(admitted: nat, limit: int, w: Window, call: Call, key: string, minute: int, allowed: bool)
    requires AdmittedFits(admitted, limit, w, key, minute)
    requires w.minute.Some? ==> w.minute.value <= call.minute
    requires call.key == key ==> call.limit <= limit
    requires allowed ==> call.limit > 0 && Count(HistoryFor(w, call), call.key) < call.limit
    ensures AdmittedFits(admitted + if call.key == key && call.minute == minute && allowed then 1 else 0, limit,
                         if call.limit <= 0 then w else Counted(w, call), key, minute)
  {
    CountCounted(w, call, key);
    NothingCounted(key);
    hide Count;
  }

  /** What a prefix of a trace has admitted for a key in a minute: nothing before that minute is
      the window, at most the counted calls while it is, and never more than the limit. */
  lemma {:induction false} AdmittedSoFar(h: Hashing, calls: seq<Call>, key: string, limit: int, minute: int, n: int)
    requires h.Valid() && 0 <= n <= |calls|
    requires ClockNeverGoesBack(calls) && LimitedTo(calls, key, limit) && 0 <= limit < INT_MAX
    ensures AdmittedFits(Admitted(h, calls, key, Some(minute), 0, n), limit, After(calls[..n]), key, minute)
  {
    if n == 0 {
      NothingAdmitted(h, calls, key, minute);
    } else {
      hide AdmittedFits, Admitted, After, Allows, Counted, HistoryFor, Count;
      AdmittedSoFar(h, calls, key, limit, minute, n - 1);
      AdmittedOneMore(h, calls, key, minute, n);
      AfterOneMore(calls, n);
      WindowIsPast(calls, n - 1);
      hide ClockNeverGoesBack;
      var call, before := calls[n - 1], After(calls[..n - 1]);
      if Allows(h, before, call) && call.key == key {
        AllowedIsWithinLimit(h, before, call);
      }
      OneMoreFits(Admitted(h, calls, key, Some(minute), 0, n - 1), limit, before, call, key, minute,
                  call.key == key && Allows(h, before, call));
    }
  }

  /** In any minute at most `limit` calls for a key are admitted, whatever other keys are called. */
  lemma MinuteBound(h: Hashing, calls: seq<Call>, key: string, limit: int, minute: int)
    requires h.Valid()
    requires ClockNeverGoesBack(calls) && LimitedTo(calls, key, limit) && 0 <= limit < INT_MAX
    ensures Admitted(h, calls, key, Some(minute), 0, |calls|) <= limit
  {
    AdmittedSoFar(h, calls, key, limit, minute, |calls|);
  }

  lemma {:induction false} SplitMinutes(h: Hashing, calls: seq<Call>, key: string, m: int, lo: int, hi: int)
    requires h.Valid() && 0 <= lo <= hi <= |calls|
    requires forall i | lo <= i < hi :: m <= calls[i].minute <= m + 1
    ensures Admitted(h, calls, key, None, lo, hi) <=
            Admitted(h, calls, key, Some(m), 0, hi) + Admitted(h, calls, key, Some(m + 1), 0, hi)
  {
    if lo < hi {
      SplitMinutes(h, calls, key, m, lo, hi - 1);
    }
  }

  lemma {:induction false} AdmittedGrows(h: Hashing, calls: seq<Call>, key: string, minute: Option<int>, hi: int,
                                         n: int)
    requires h.Valid() && 0 <= hi <= n <= |calls|
    ensures Admitted(h, calls, key, minute, 0, hi) <= Admitted(h, calls, key, minute, 0, n)
  {
    if hi < n {
      AdmittedGrows(h, calls, key, minute, hi, n - 1);
    }
  }

  /** Sliding bound: `seconds[i]` is the second at which call `i` reads the clock, so its minute
      is `seconds[i] / 60`. A span of 60 seconds meets at most two minutes, and therefore admits
      at most twice the limit. */
  lemma SlidingBound(h: Hashing, calls: seq<Call>, seconds: seq<nat>, key: string, limit: int, lo: int, hi: int)
    requires h.Valid() && |seconds| == |calls| && 0 <= lo < hi <= |calls|
    requires forall i | 0 <= i < |calls| :: calls[i].minute == seconds[i] / 60
    requires forall i, j | 0 <= i < j < |calls| :: seconds[i] <= seconds[j]
    requires LimitedTo(calls, key, limit) && 0 <= limit < INT_MAX
    requires seconds[hi - 1] - seconds[lo] <= 60
    ensures Admitted(h, calls, key, None, lo, hi) <= 2 * limit
  {
    var m := seconds[lo] / 60;
    forall i, j | 0 <= i < j < |calls| ensures calls[i].minute <= calls[j].minute {
      assert seconds[i] <= seconds[j];
    }
    forall i | lo <= i < hi ensures m <= calls[i].minute <= m + 1 {
      assert seconds[lo] <= seconds[i] <= seconds[hi - 1];
    }
    SplitMinutes(h, calls, key, m, lo, hi);
    AdmittedGrows(h, calls, key, Some(m), hi, |calls|);
    AdmittedGrows(h, calls, key, Some(m + 1), hi, |calls|);
    MinuteBound(h, calls, key, limit, m);
    MinuteBound(h, calls, key, limit, m + 1);
  }

  // ----- Refinement to one exact counter per key -----

  /** The counter the limiter approximates: one saturating count for each key, cleared with the
      window. */
  datatype Exact = Exact(minute: Option<int>, counts: map<string, Int32>) {
    function At(minute': int): map<string, Int32> {
      if minute == Some(minute') then counts else map[]
    }

    function Next(call: Call): Int32 {
      var counts' := At(call.minute);
      var current := if call.key in counts' then counts'[call.key] else 0;
      if current == INT_MAX then INT_MAX else Max(current, 0) + 1
    }

    predicate Allows(call: Call) {
      call.limit > 0 && Next(call) <= call.limit
    }
  }

  function ExactAfter(calls: seq<Call>): Exact {
    if calls == [] then Exact(None, map[])
    else
      var before, call := ExactAfter(calls[..|calls| - 1]), calls[|calls| - 1];
      if call.limit <= 0 then before
      else Exact(Some(call.minute), before.At(call.minute)[call.key := before.Next(call)])
  }

  lemma LastCall(calls: seq<Call>)
    requires calls != []
    ensures var before, call := calls[..|calls| - 1], calls[|calls| - 1];
            && After(calls) == (if call.limit <= 0 then After(before) else Counted(After(before), call))
            && ExactAfter(calls) ==
               if call.limit <= 0 then ExactAfter(before)
               else var e := ExactAfter(before); Exact(Some(call.minute), e.At(call.minute)[call.key := e.Next(call)])
  {
  }

  lemma NothingCounted(key: string)
    ensures Count([], key) == 0
  {
  }

  lemma {:induction false} ExactCounts(calls: seq<Call>, key: string)
    ensures var w, e := After(calls), ExactAfter(calls);
            && w.minute == e.minute
            && (key in e.counts <==> Count(w.history, key) > 0)
            && (key in e.counts ==> e.counts[key] == Min(Count(w.history, key), INT_MAX))
  {
    if calls != [] {
      var before, call := calls[..|calls| - 1], calls[|calls| - 1];
      ExactCounts(before, key);
      CountCounted(After(before), call, key);
      LastCall(calls);
      NothingCounted(key);
      hide After, ExactAfter, Count;
    }
  }

  /** The limiter never admits a call that an exact counter per key would refuse. */
  lemma NeverAdmitsMore(h: Hashing, calls: seq<Call>, i: int)
    requires h.Valid() && 0 <= i < |calls|
    ensures Admits(h, calls, i) ==> ExactAfter(calls[..i]).Allows(calls[i])
  {
    ExactCounts(calls[..i], calls[i].key);
    NeverUnderCounts(h, HistoryFor(After(calls[..i]), calls[i]), calls[i].key);
  }

  /** Where some row isolates the key from the other keys of its window, the answer is exact. */
  lemma IsolatedRefinesExact(h: Hashing, calls: seq<Call>, i: int)
    requires h.Valid() && 0 <= i < |calls|
    requires Isolated(h, HistoryFor(After(calls[..i]), calls[i]), calls[i].key)
    ensures Admits(h, calls, i) <==> ExactAfter(calls[..i]).Allows(calls[i])
  {
    ExactCounts(calls[..i], calls[i].key);
    IsolatedIsExact(h, HistoryFor(After(calls[..i]), calls[i]), calls[i].key);
  }

  // ----- Keys whose digests keep them apart -----

  /** The slot of a key in a row, spelled out: its four digest bytes as an unsigned number, reduced. */
  lemma BucketOfBytes(h: Hashing, key: string, row: int)
    requires h.Valid() && 0 <= row < HASH_COUNT
    ensures var d := h.digest(key)[4 * row..4 * row + 4];
            h.Bucket(key, row) ==
            (d[0] as int * 0x100_0000 + d[1] as int * 0x1_0000 + d[2] as int * 0x100 + d[3] as int) % h.slots
  {
    FourBytes(h.digest(key)[4 * row..4 * row + 4]);
  }

  lemma FourBytes(bytes: seq<Byte>)
    requires |bytes| == 4
    ensures BigEndian(bytes) == bytes[0] as int * 0x100_0000 + bytes[1] as int * 0x1_0000 + bytes[2] as int * 0x100
              + bytes[3] as int
  {
    var b3, b2, b1 := bytes[..3], bytes[..2], bytes[..1];
    assert b3[..2] == b2 && b2[..1] == b1 && b1[..0] == [];
    assert BigEndian(b1) == bytes[0] as int;
    assert BigEndian(b2) == 256 * (bytes[0] as int) + bytes[1] as int;
    assert BigEndian(b3) == 256 * BigEndian(b2) + bytes[2] as int;
  }

  /** The digests give the keys slots of their own in the row. */
  predicate DigestsDiffer(h: Hashing, key: string, other: string, row: int)
    requires h.Valid() && 0 <= row < HASH_COUNT
  {
    var d, e := h.digest(key)[4 * row..4 * row + 4], h.digest(other)[4 * row..4 * row + 4];
    (d[0] as int * 0x100_0000 + d[1] as int * 0x1_0000 + d[2] as int * 0x100 + d[3] as int) % h.slots !=
    (e[0] as int * 0x100_0000 + e[1] as int * 0x1_0000 + e[2] as int * 0x100 + e[3] as int) % h.slots
  }

  lemma DigestsTellSlots(h: Hashing, key: string, other: string, row: int)
    requires h.Valid() && 0 <= row < HASH_COUNT
    ensures DigestsDiffer(h, key, other, row) <==> h.Bucket(key, row) != h.Bucket(other, row)
  {
    BucketOfBytes(h, key, row);
    BucketOfBytes(h, other, row);
  }

  /** Keys whose digests differ from that of a key in one row isolate it. */
  lemma DifferentDigestsIsolate(h: Hashing, history: seq<string>, key: string, row: int)
    requires h.Valid() && 0 <= row < HASH_COUNT
    requires forall other | other in history && other != key :: DigestsDiffer(h, key, other, row)
    ensures Isolated(h, history, key)
  {
    forall other | other in history && other != key ensures h.Bucket(other, row) != h.Bucket(key, row) {
      DigestsTellSlots(h, key, other, row);
    }
    assert IsolatedInRow(h, history, key, row);
  }

  /** The calls of a key that are counted in a minute. */
  function CallsOf(calls: seq<Call>, key: string, minute: int): set<nat> {
    set j: nat | j < |calls| && calls[j].key == key && calls[j].limit > 0 && calls[j].minute == minute
  }

  /** The history of the window in force is made of the calls of its minute. */
  lemma {:induction false} WindowCounts(calls: seq<Call>, key: string, minute: int)
    requires ClockNeverGoesBack(calls) && (calls != [] ==> calls[|calls| - 1].minute <= minute)
    ensures var w := After(calls);
            (if w.minute == Some(minute) then Count(w.history, key) else 0) == |CallsOf(calls, key, minute)|
  {
    NothingCounted(key);
    if calls != [] {
      var n := |calls| - 1;
      var before, call := calls[..n], calls[n];
      WindowCounts(before, key, call.minute);
      WindowIsPast(calls, n);
      LastCall(calls);
      CountCounted(After(before), call, key);
      OneMoreCall(calls, key, minute);
      BoundedCalls(calls, key, minute);
      hide After, ExactAfter, CallsOf, Count;
    }
  }

  lemma OneMoreCall(calls: seq<Call>, key: string, minute: int)
    requires calls != [] && ClockNeverGoesBack(calls) && calls[|calls| - 1].minute <= minute
    ensures var before, call := calls[..|calls| - 1], calls[|calls| - 1];
            && |CallsOf(calls, key, minute)| == |CallsOf(before, key, minute)| +
                                               if call == Call(key, call.limit, minute) && call.limit > 0 then 1 else 0
  {
    var n := |calls| - 1;
    var before, call := calls[..n], calls[n];
    forall j: nat ensures j in CallsOf(before, key, minute) <==> j < n && j in CallsOf(calls, key, minute) {
      if j < n { assert before[j] == calls[j]; }
    }
    var counted := call.key == key && call.limit > 0 && call.minute == minute;
    assert n in CallsOf(calls, key, minute) <==> counted;
    BoundedCalls(calls, key, minute);
    hide CallsOf;
    assert CallsOf(calls, key, minute) == CallsOf(before, key, minute) + if counted then {n} else {};
  }

  lemma BoundedCalls(calls: seq<Call>, key: string, minute: int)
    ensures forall j | j in CallsOf(calls, key, minute) :: j < |calls| && calls[j].minute == minute
  {
  }

  /** What a caller may rely on, from digests and calls alone: with a clock that never goes back, if in
      some row the digest of every other key counted in the minute differs from that of the key, a
      call is admitted exactly if fewer calls of its key than its limit were counted in the minute. */
  lemma AdmittedExactly(h: Hashing, calls: seq<Call>, i: nat, row: int)
    requires h.Valid() && i < |calls| && 0 <= row < HASH_COUNT && ClockNeverGoesBack(calls)
    requires forall j: nat | j < i && calls[j].limit > 0 && calls[j].minute == calls[i].minute
               && calls[j].key != calls[i].key ::
               DigestsDiffer(h, calls[i].key, calls[j].key, row)
    ensures var counted :=
              |set j: nat | j < i && calls[j].key == calls[i].key && calls[j].limit > 0
                  && calls[j].minute == calls[i].minute|;
            Admits(h, calls, i) <==> counted < calls[i].limit || calls[i].limit == INT_MAX
  {
    var call, before := calls[i], calls[..i];
    forall j, k | 0 <= j < k < |before| ensures before[j].minute <= before[k].minute {
      assert calls[j].minute <= calls[k].minute;
    }
    var history := HistoryFor(After(before), call);
    forall other | other in history && other != call.key ensures DigestsDiffer(h, call.key, other, row) {
      WindowCounts(before, other, call.minute);
      assert CallsOf(before, other, call.minute) != {};
      var j :| j in CallsOf(before, other, call.minute);
      assert before[j] == calls[j];
    }
    DifferentDigestsIsolate(h, history, call.key, row);
    IsolatedIsExact(h, history, call.key);
    WindowCounts(before, call.key, call.minute);
    NothingCounted(call.key);
    assert CallsOf(before, call.key, call.minute) ==
           set j: nat | j < i && calls[j].key == call.key && calls[j].limit > 0 && calls[j].minute == call.minute;
    hide After, Isolated, DigestsDiffer, Estimate;
  }

  /** A limit bounds the calls unless it is Int.MAX_VALUE, where saturation admits every one. */
  lemma UnlimitedAtMax(h: Hashing, key: string, limit: Int32)
    requires h.Valid()
    ensures (forall history :: NextEstimate(h, history, key) <= limit) <==> limit == INT_MAX
  {
    if limit != INT_MAX {
      var history := Repeated(key, INT_MAX);
      NeverUnderCounts(h, history, key);
      assert NextEstimate(h, history, key) == INT_MAX;
    }
  }

  ghost function Repeated(key: string, n: nat): (history: seq<string>)
    ensures Count(history, key) == n
  {
    if n == 0 then []
    else
      var shorter := Repeated(key, n - 1);
      CountLast(shorter + [key], key);
      assert (shorter + [key])[..|shorter|] == shorter;
      shorter + [key]
  }

  // ----- The limiter itself -----

  class FixedWindowRateLimiter {
    const hashing: Hashing
    const counters: array2<Int32>
    var activeWindowMinute: Option<int>
    ghost var history: seq<string>

    ghost predicate Valid()
      reads this, counters
    {
      && hashing.Valid()
      && counters.Length0 == HASH_COUNT && counters.Length1 == hashing.slots
      && (activeWindowMinute.None? ==> history == [])
      && forall row, slot | 0 <= row < HASH_COUNT && 0 <= slot < hashing.slots ::
           counters[row, slot] == Cell(hashing, history, row, slot)
    }

    ghost function State(): Window
      reads this
    {
      Window(activeWindowMinute, history)
    }

    constructor (digest: string -> Sha256, counterSlots: int)
      requires 1 <= counterSlots <= MAX_COUNTER_SLOTS
      ensures Valid() && fresh(counters)
      ensures hashing == Hashing(digest, counterSlots) && State() == After([])
    {
      hashing := Hashing(digest, counterSlots);
      counters := new Int32[HASH_COUNT, counterSlots]((row, slot) => 0);
      activeWindowMinute := None;
      history := [];
    }

    /** One call of `allow`: the new window and the answer are those of the trace functions. */
    method Allow(key: string, limit: Int32, currentEpochMinute: int) returns (allowed: bool)
      requires Valid()
      modifies this, counters
      ensures Valid()
      ensures var call := Call(key, limit, currentEpochMinute);
              && allowed == Allows(hashing, old(State()), call)
              && State() == if limit <= 0 then old(State()) else Counted(old(State()), call)
      ensures limit <= 0 ==> forall row, slot | 0 <= row < HASH_COUNT && 0 <= slot < hashing.slots ::
                counters[row, slot] == old(counters[row, slot])
    {
      if limit <= 0 { return false; }
      if activeWindowMinute != Some(currentEpochMinute) {
        ClearCounters();
        activeWindowMinute := Some(currentEpochMinute);
        history := [];
      }
      var indexes := BucketIndexes(key);
      var currentEstimate := CurrentEstimate(key, indexes);
      var nextEstimate := if currentEstimate == INT_MAX then INT_MAX else currentEstimate + 1;
      RaiseTo(nextEstimate, indexes);
      forall row, slot | 0 <= row < HASH_COUNT && 0 <= slot < hashing.slots
        ensures counters[row, slot] == Cell(hashing, history + [key], row, slot)
      {
        CellAfter(hashing, history, key, row, slot);
      }
      history := history + [key];
      return nextEstimate <= limit;
    }

    method CurrentEstimate(key: string, indexes: seq<int>) returns (estimate: Int32)
      requires Valid() && |indexes| == HASH_COUNT
      requires forall row | 0 <= row < HASH_COUNT :: indexes[row] == hashing.Bucket(key, row)
      ensures estimate == Estimate(hashing, history, key)
    {
      estimate := counters[0, indexes[0]];
      for row := 1 to HASH_COUNT
        invariant estimate == MinOfRows(hashing, history, key, row)
      {
        estimate := Min(estimate, counters[row, indexes[row]]);
      }
    }

    /** The conservative update: only the counters of the key that are below are raised. */
    method RaiseTo(nextEstimate: Int32, indexes: seq<int>)
      requires counters.Length0 == HASH_COUNT == |indexes|
      requires forall row | 0 <= row < HASH_COUNT :: 0 <= indexes[row] < counters.Length1
      modifies counters
      ensures forall row, slot | 0 <= row < HASH_COUNT && 0 <= slot < counters.Length1 ::
                counters[row, slot] ==
                if indexes[row] == slot then Max(old(counters[row, slot]), nextEstimate) else old(counters[row, slot])
    {
      for row := 0 to HASH_COUNT
        invariant forall r, s | 0 <= r < row && 0 <= s < counters.Length1 ::
                    counters[r, s] ==
                    if indexes[r] == s then Max(old(counters[r, s]), nextEstimate) else old(counters[r, s])
        invariant forall r, s | row <= r < HASH_COUNT && 0 <= s < counters.Length1 ::
                    counters[r, s] == old(counters[r, s])
      {
        if counters[row, indexes[row]] < nextEstimate {
          counters[row, indexes[row]] := nextEstimate;
        }
      }
    }

    method ClearCounters()
      requires counters.Length0 == HASH_COUNT
      modifies counters
      ensures forall row, slot | 0 <= row < HASH_COUNT && 0 <= slot < counters.Length1 :: counters[row, slot] == 0
    {
      for row := 0 to HASH_COUNT
        invariant forall r, s | 0 <= r < row && 0 <= s < counters.Length1 :: counters[r, s] == 0
      {
        for slot := 0 to counters.Length1
          invariant forall r, s | 0 <= r < row && 0 <= s < counters.Length1 :: counters[r, s] == 0
          invariant forall s | 0 <= s < slot :: counters[row, s] == 0
        {
          counters[row, slot] := 0;
        }
      }
    }

    /** Four slices of the digest, read big-endian and reduced to a slot. */
    method BucketIndexes(key: string) returns (indexes: seq<int>)
      requires hashing.Valid()
      ensures |indexes| == HASH_COUNT
      ensures forall row | 0 <= row < HASH_COUNT :: indexes[row] == hashing.Bucket(key, row)
      ensures forall row | 0 <= row < HASH_COUNT ::
                var d := hashing.digest(key)[4 * row..4 * row + 4];
                indexes[row] ==
                (d[0] as int * 0x100_0000 + d[1] as int * 0x1_0000 + d[2] as int * 0x100 + d[3] as int) % hashing.slots
    {
      var hash := hashing.digest(key);
      indexes := [];
      for row := 0 to HASH_COUNT
        invariant |indexes| == row
        invariant forall r | 0 <= r < row :: indexes[r] == hashing.Bucket(key, r)
      {
        var offset := row * INT_BYTES;
        var value := 0;
        for byteIndex := 0 to INT_BYTES
          invariant value == BigEndian(hash[offset..offset + byteIndex])
        {
          assert hash[offset..offset + byteIndex + 1][..byteIndex] == hash[offset..offset + byteIndex];
          value := value * 256 + hash[offset + byteIndex];
        }
        BigEndianFits(hash[offset..offset + INT_BYTES]);
        indexes := indexes + [value % hashing.slots];
      }
      forall row | 0 <= row < HASH_COUNT {
        BucketOfBytes(hashing, key, row);
      }
    }

    method CounterSlotCount() returns (total: int)
      requires Valid()
      ensures total == HASH_COUNT * hashing.slots
    {
      total := 0;
      for row := 0 to HASH_COUNT
        invariant total == row * hashing.slots
      {
        total := total + counters.Length1;
      }
    }
  }

  /** Drives a limiter over a whole trace: its answers are those the trace lemmas speak of. */
  method Replay(digest: string -> Sha256, counterSlots: int, calls: seq<Call>) returns (answers: seq<bool>)
    requires 1 <= counterSlots <= MAX_COUNTER_SLOTS
    ensures |answers| == |calls|
    ensures forall i | 0 <= i < |calls| :: answers[i] == Admits(Hashing(digest, counterSlots), calls, i)
  {
    var limiter := new FixedWindowRateLimiter(digest, counterSlots);
    answers := [];
    for n := 0 to |calls|
      invariant limiter.Valid() && fresh(limiter) && fresh(limiter.counters)
      invariant limiter.hashing == Hashing(digest, counterSlots)
      invariant limiter.State() == After(calls[..n])
      invariant |answers| == n
      invariant forall i | 0 <= i < n :: answers[i] == Admits(Hashing(digest, counterSlots), calls, i)
    {
      assert calls[..n + 1][..n] == calls[..n];
      var allowed := limiter.Allow(calls[n].key, calls[n].limit, calls[n].minute);
      answers := answers + [allowed];
    }
  }
}

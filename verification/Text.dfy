/** The few string operations the parsers and key builders rely on. Case folding is ASCII only. */
module Text {

  predicate IsSpace(c: char) {
    c in {' ', '\t', '\n', '\r', '\U{000B}', '\U{000C}', '\U{0085}', '\U{00A0}'}
  }

  function TrimLeft(s: string): string {
    if s != "" && IsSpace(s[0]) then TrimLeft(s[1..]) else s
  }

  function TrimRight(s: string): string {
    if s != "" && IsSpace(s[|s| - 1]) then TrimRight(s[..|s| - 1]) else s
  }

  function Trim(s: string): string {
    TrimRight(TrimLeft(s))
  }

  predicate Blank(s: string) {
    Trim(s) == ""
  }

  /** No space at either end: what trimming leaves alone. */
  predicate Trimmed(s: string) {
    s != "" ==> !IsSpace(s[0]) && !IsSpace(s[|s| - 1])
  }

  lemma TrimmedIsFixed(s: string)
    requires Trimmed(s)
    ensures Trim(s) == s
  {
    assert TrimLeft(s) == s;
  }

  lemma {:induction false} TrimLeftStarts(s: string)
    ensures TrimLeft(s) != "" ==> !IsSpace(TrimLeft(s)[0]) && TrimLeft(s)[|TrimLeft(s)| - 1] == s[|s| - 1]
    ensures |TrimLeft(s)| <= |s|
    ensures forall c | c in TrimLeft(s) :: c in s
  {
    if s != "" && IsSpace(s[0]) {
      TrimLeftStarts(s[1..]);
    }
  }

  lemma {:induction false} TrimRightEnds(s: string)
    ensures TrimRight(s) != "" ==> !IsSpace(TrimRight(s)[|TrimRight(s)| - 1]) && TrimRight(s)[0] == s[0]
    ensures |TrimRight(s)| <= |s|
    ensures forall c | c in TrimRight(s) :: c in s
  {
    if s != "" && IsSpace(s[|s| - 1]) {
      TrimRightEnds(s[..|s| - 1]);
    }
  }

  lemma TrimTrims(s: string)
    ensures Trimmed(Trim(s)) && |Trim(s)| <= |s|
    ensures Trim(Trim(s)) == Trim(s)
    ensures forall c | c in Trim(s) :: c in s
  {
    TrimLeftStarts(s);
    TrimRightEnds(TrimLeft(s));
    TrimmedIsFixed(Trim(s));
  }

  function LowerChar(c: char): char {
    if 'A' <= c <= 'Z' then (c as int + 32) as char else c
  }

  function ToLower(s: string): (r: string)
    ensures |r| == |s|
    ensures forall i | 0 <= i < |s| :: r[i] == LowerChar(s[i])
  {
    if s == "" then "" else [LowerChar(s[0])] + ToLower(s[1..])
  }

  /** The pieces between separators; never empty. */
  function Split(s: string, sep: char): (parts: seq<string>)
    ensures |parts| >= 1
  {
    if s == "" then [""]
    else
      var rest := Split(s[1..], sep);
      if s[0] == sep then [""] + rest else [[s[0]] + rest[0]] + rest[1..]
  }

  function Join(parts: seq<string>, sep: char): string {
    if parts == [] then ""
    else if |parts| == 1 then parts[0]
    else parts[0] + [sep] + Join(parts[1..], sep)
  }

  lemma JoinPeels(first: string, others: seq<string>, sep: char)
    requires others != []
    ensures Join([first] + others, sep) == first + [sep] + Join(others, sep)
  {
    assert ([first] + others)[1..] == others;
  }

  lemma {:induction false} SplitPlain(s: string, sep: char)
    requires sep !in s
    ensures Split(s, sep) == [s]
  {
    if s != "" {
      SplitPlain(s[1..], sep);
      assert [s[0]] + s[1..] == s;
    }
  }

  /** Splitting after a piece without separators peels that piece off. */
  lemma {:induction false} SplitFirst(piece: string, rest: string, sep: char)
    requires sep !in piece
    ensures Split(piece + [sep] + rest, sep) == [piece] + Split(rest, sep)
  {
    var s := piece + [sep] + rest;
    if piece == "" {
      assert s[1..] == rest;
    } else {
      assert s[1..] == piece[1..] + [sep] + rest;
      SplitFirst(piece[1..], rest, sep);
      assert [piece[0]] + piece[1..] == piece;
    }
  }

  lemma {:induction false} SplitJoin(parts: seq<string>, sep: char)
    requires parts != [] && forall part | part in parts :: sep !in part
    ensures Split(Join(parts, sep), sep) == parts
  {
    if |parts| == 1 {
      SplitPlain(parts[0], sep);
    } else {
      SplitFirst(parts[0], Join(parts[1..], sep), sep);
      SplitJoin(parts[1..], sep);
    }
  }

  /** A separator inside a piece always shows up as an extra part. */
  lemma {:induction false} SplitCount(s: string, sep: char)
    ensures |Split(s, sep)| == 1 <==> sep !in s
  {
    if s != "" {
      SplitCount(s[1..], sep);
    }
  }

  /** A prefix without the separator is determined by the joined text, and so is what follows. */
  lemma PrefixesAgree(a: string, x: string, b: string, y: string, sep: char)
    requires sep !in a && sep !in b
    requires a + [sep] + x == b + [sep] + y
    ensures a == b && x == y
  {
    var s := a + [sep] + x;
    SplitFirst(a, x, sep);
    SplitFirst(b, y, sep);
    assert Split(s, sep)[0] == a == b;
    assert s[|a| + 1..] == x && s[|b| + 1..] == y;
  }

  // ----- Keys joined by NUL -----

  const NUL := '\0'

  function TrimNulRight(s: string): string {
    if s != "" && s[|s| - 1] == NUL then TrimNulRight(s[..|s| - 1]) else s
  }

  function TrimNulLeft(s: string): string {
    if s != "" && s[0] == NUL then TrimNulLeft(s[1..]) else s
  }

  function TrimNul(s: string): string {
    TrimNulRight(TrimNulLeft(s))
  }

  predicate Plain(parts: seq<string>) {
    forall part | part in parts :: NUL !in part
  }

  function StrippedLeft(parts: seq<string>): seq<string> {
    if parts != [] && parts[0] == "" then StrippedLeft(parts[1..]) else parts
  }

  function StrippedRight(parts: seq<string>): seq<string> {
    if parts != [] && parts[|parts| - 1] == "" then StrippedRight(parts[..|parts| - 1]) else parts
  }

  /** The parts without the empty ones at either end. */
  function Stripped(parts: seq<string>): seq<string> {
    StrippedRight(StrippedLeft(parts))
  }

  lemma {:induction false} TrimNulLeftOfJoin(parts: seq<string>)
    requires Plain(parts)
    ensures TrimNulLeft(Join(parts, NUL)) == Join(StrippedLeft(parts), NUL) && Plain(StrippedLeft(parts))
  {
    if parts != [] && parts[0] == "" {
      TrimNulLeftOfJoin(parts[1..]);
      if |parts| > 1 {
        assert Join(parts, NUL)[1..] == Join(parts[1..], NUL);
      }
    } else if parts != [] {
      assert Join(parts, NUL)[0] == parts[0][0] && parts[0][0] in parts[0];
    }
  }

  lemma {:induction false} JoinEnds(parts: seq<string>)
    requires |parts| > 1
    ensures Join(parts, NUL) == Join(parts[..|parts| - 1], NUL) + [NUL] + parts[|parts| - 1]
  {
    if |parts| > 2 {
      JoinEnds(parts[1..]);
      assert parts[1..][..|parts| - 2] == parts[..|parts| - 1][1..];
    } else {
      assert parts[1..] == [parts[1]];
    }
  }

  lemma {:induction false} TrimNulRightOfJoin(parts: seq<string>)
    requires Plain(parts)
    ensures TrimNulRight(Join(parts, NUL)) == Join(StrippedRight(parts), NUL) && Plain(StrippedRight(parts))
  {
    var n, joined := |parts| - 1, Join(parts, NUL);
    if |parts| > 1 { JoinEnds(parts); }
    if parts != [] && parts[n] == "" {
      TrimNulRightOfJoin(parts[..n]);
      if |parts| > 1 {
        assert joined[..|joined| - 1] == Join(parts[..n], NUL);
      }
    } else if parts != [] {
      assert joined[|joined| - 1] == parts[n][|parts[n]| - 1] && parts[n][|parts[n]| - 1] in parts[n];
    }
  }

  lemma {:induction false} StrippedEnds(parts: seq<string>)
    ensures var s := Stripped(parts); s != [] ==> s[0] != "" && s[|s| - 1] != ""
  {
    StrippedLeftStarts(parts);
    StrippedRightEnds(StrippedLeft(parts));
  }

  lemma {:induction false} StrippedLeftStarts(parts: seq<string>)
    ensures StrippedLeft(parts) != [] ==> StrippedLeft(parts)[0] != ""
  {
    if parts != [] && parts[0] == "" { StrippedLeftStarts(parts[1..]); }
  }

  lemma {:induction false} StrippedRightEnds(parts: seq<string>)
    ensures StrippedRight(parts) <= parts
    ensures StrippedRight(parts) != [] ==> StrippedRight(parts)[|StrippedRight(parts)| - 1] != ""
  {
    if parts != [] && parts[|parts| - 1] == "" { StrippedRightEnds(parts[..|parts| - 1]); }
  }

  /** Two joined keys are equal exactly if their parts are, apart from empty ones at the ends: a part can
      move into the place of an empty one before it. */
  lemma TrimmedJoinsAgree(a: seq<string>, b: seq<string>)
    requires Plain(a) && Plain(b)
    ensures TrimNul(Join(a, NUL)) == TrimNul(Join(b, NUL)) <==> Stripped(a) == Stripped(b)
  {
    TrimNulOfJoin(a);
    TrimNulOfJoin(b);
    hide Join, Split;
    if Stripped(a) != [] { SplitJoin(Stripped(a), NUL); }
    if Stripped(b) != [] { SplitJoin(Stripped(b), NUL); }
  }

  lemma TrimNulOfJoin(parts: seq<string>)
    requires Plain(parts)
    ensures TrimNul(Join(parts, NUL)) == Join(Stripped(parts), NUL) && Plain(Stripped(parts))
    ensures Join(Stripped(parts), NUL) == "" <==> Stripped(parts) == []
  {
    TrimNulLeftOfJoin(parts);
    TrimNulRightOfJoin(StrippedLeft(parts));
    StrippedEnds(parts);
  }

  /** Behind a first part that is not empty none moves. */
  lemma HeadedPartsStay(a: seq<string>, b: seq<string>)
    requires |a| == |b| > 0 && a[0] != "" && b[0] != ""
    ensures Stripped(a) == Stripped(b) <==> a == b
  {
    StrippedRightFills(a);
    StrippedRightFills(b);
    if Stripped(a) == Stripped(b) {
      forall i | 0 <= i < |a| ensures a[i] == b[i] {
      }
    }
  }

  lemma {:induction false} StrippedRightFills(parts: seq<string>)
    ensures StrippedRight(parts) <= parts
    ensures forall i | |StrippedRight(parts)| <= i < |parts| :: parts[i] == ""
  {
    if parts != [] && parts[|parts| - 1] == "" { StrippedRightFills(parts[..|parts| - 1]); }
  }

  lemma OnePart(text: string, parts: seq<string>)
    requires text != "" && parts != [] && parts[0] == text && forall i | 0 < i < |parts| :: parts[i] == ""
    ensures Stripped(parts) == [text]
  {
    StrippedRightFills(parts);
    StrippedRightEnds(parts);
  }

  lemma {:induction false} LastPartOnly(parts: seq<string>)
    requires parts != [] && forall i | 0 <= i < |parts| - 1 :: parts[i] == ""
    ensures Stripped(parts) == if parts[|parts| - 1] == "" then [] else [parts[|parts| - 1]]
  {
    if |parts| > 1 {
      LastPartOnly(parts[1..]);
    } else if parts[0] == "" {
      assert StrippedLeft(parts[1..]) == [];
    } else {
      OnePart(parts[0], parts);
    }
  }
}

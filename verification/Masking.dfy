/** Masking of logged values: trees of maps and lists, whose keys say what must not be shown.

    A map is the list of its entries. Masking turns keys into texts, so two keys may become one: the
    entry then keeps its first place and its last value. `show` is the text of a map or a list. */
module Masking {
  import opened Text
  import opened Wrappers

  datatype Value =
    | Null
    | Plain(text: string)
    | Other(shown: string)
    | Items(items: seq<Value>)
    | Map(entries: seq<Entry>)

  datatype Entry = Entry(key: Option<string>, value: Value)

  const FULL_MASK: string := "****"

  predicate FullyMasked(key: Option<string>) {
    var k := Normalized(key);
    || k == "password" || k == "passwordconfirm" || k == "accesstoken" || k == "refreshtoken"
    || k == "authorization" || k == "authenticate" || k == "token" || k == "salt" || k == "secret"
  }

  predicate PartlyMasked(key: Option<string>) {
    Normalized(key) == "loginid" || Normalized(key) == "username"
  }

  function Normalized(key: Option<string>): string {
    if key.None? then "" else ToLower(Trim(key.value))
  }

  function KeyText(key: Option<string>): string {
    if key.None? then "null" else key.value
  }

  // ----- The masks -----

  function Stars(n: nat): (s: string)
    ensures |s| == n && forall i | 0 <= i < n :: s[i] == '*'
  {
    if n == 0 then "" else Stars(n - 1) + "*"
  }

  function PartialMask(text: Option<string>): Option<string> {
    var raw := if text.None? then "" else Trim(text.value);
    if raw == "" then None
    else if |raw| <= 3 then Some(raw)
    else Some(raw[..3] + Stars(|raw| - 3))
  }

  function TextOf(v: Value, show: Value -> string): Option<string> {
    match v
    case Null => None
    case Plain(text) => Some(text)
    case Other(shown) => Some(shown)
    case _ => Some(show(v))
  }

  function Optional(text: Option<string>): Value {
    if text.None? then Null else Plain(text.value)
  }

  function Put(m: seq<Entry>, e: Entry): seq<Entry> {
    if m == [] then [e]
    else if m[0].key == e.key then [e] + m[1..]
    else [m[0]] + Put(m[1..], e)
  }

  function Associate(entries: seq<Entry>): seq<Entry> {
    if entries == [] then [] else Put(Associate(entries[..|entries| - 1]), entries[|entries| - 1])
  }

  function MaskObject(v: Value, show: Value -> string): Value
    decreases v, 1
  {
    match v
    case Items(items) => Items(seq(|items|, i requires 0 <= i < |items| => MaskObject(items[i], show)))
    case Map(entries) => Map(Associate(MaskEntries(v, show)))
    case _ => v
  }

  function MaskEntries(v: Value, show: Value -> string): (r: seq<Entry>)
    requires v.Map?
    ensures |r| == |v.entries|
    ensures forall i | 0 <= i < |r| ::
              r[i] == Entry(Some(KeyText(v.entries[i].key)), MaskByKey(v.entries[i].key, v.entries[i].value, show))
    decreases v, 0
  {
    seq(|v.entries|, i requires 0 <= i < |v.entries| =>
      Entry(Some(KeyText(v.entries[i].key)), MaskByKey(v.entries[i].key, v.entries[i].value, show)))
  }

  function MaskByKey(key: Option<string>, v: Value, show: Value -> string): Value
    decreases v, 2
  {
    if FullyMasked(key) then Plain(FULL_MASK)
    else if PartlyMasked(key) then Optional(PartialMask(TextOf(v, show)))
    else MaskObject(v, show)
  }

  // ----- What is left to see -----

  predicate DistinctKeys(entries: seq<Entry>) {
    forall i, j | 0 <= i < j < |entries| :: entries[i].key != entries[j].key
  }

  /** At most the first three characters are shown. */
  predicate Veiled(v: Value) {
    v == Null || (v.Plain? && v.text != "" && Trimmed(v.text) && forall i | 3 <= i < |v.text| :: v.text[i] == '*')
  }

  predicate CleanByKey(key: Option<string>, v: Value)
    decreases v, 1
  {
    if FullyMasked(key) then v == Plain(FULL_MASK)
    else if PartlyMasked(key) then Veiled(v)
    else Clean(v)
  }

  /** Nothing that should be masked is readable, at any depth; keys are texts and distinct. */
  predicate Clean(v: Value)
    decreases v, 0
  {
    match v
    case Items(items) => forall i | 0 <= i < |items| :: Clean(items[i])
    case Map(entries) =>
      && DistinctKeys(entries)
      && (forall i | 0 <= i < |entries| :: entries[i].key.Some? && CleanByKey(entries[i].key, entries[i].value))
    case _ => true
  }

  // ----- Maps -----

  lemma {:induction false} PutKeeps(m: seq<Entry>, e: Entry)
    requires DistinctKeys(m)
    ensures DistinctKeys(Put(m, e))
    ensures forall x | x in Put(m, e) :: x in m || x == e
    ensures (forall x | x in m :: x.key != e.key) ==> Put(m, e) == m + [e]
  {
    if m != [] && m[0].key != e.key {
      assert forall x | x in m[1..] :: x in m;
      var rest := Put(m[1..], e);
      PutKeeps(m[1..], e);
      assert m[0] in m && m == [m[0]] + m[1..];
      forall j | 0 <= j < |rest| ensures rest[j].key != m[0].key {
        assert rest[j] in rest;
      }
    }
  }

  lemma {:induction false} AssociateKeeps(entries: seq<Entry>)
    ensures DistinctKeys(Associate(entries))
    ensures forall x | x in Associate(entries) :: x in entries
    ensures DistinctKeys(entries) ==> Associate(entries) == entries
  {
    if entries != [] {
      var before, last := entries[..|entries| - 1], entries[|entries| - 1];
      AssociateKeeps(before);
      PutKeeps(Associate(before), last);
      assert entries == before + [last];
    }
  }

  // ----- Masking leaves nothing to see, and leaves what is clean alone -----

  lemma PartialMaskVeils(text: Option<string>)
    ensures Veiled(Optional(PartialMask(text)))
  {
    if text.Some? {
      TrimTrims(text.value);
      var raw := Trim(text.value);
      if |raw| > 3 {
        var masked := raw[..3] + Stars(|raw| - 3);
        forall i | 3 <= i < |masked| ensures masked[i] == '*' {
          assert masked[i] == Stars(|raw| - 3)[i - 3];
        }
      }
    }
  }

  lemma VeiledIsFixed(v: Value, show: Value -> string)
    requires Veiled(v)
    ensures Optional(PartialMask(TextOf(v, show))) == v
  {
    if v.Plain? {
      TrimmedIsFixed(v.text);
      if |v.text| > 3 {
        var masked := v.text[..3] + Stars(|v.text| - 3);
        forall i | 3 <= i < |masked| ensures masked[i] == v.text[i] {
          assert masked[i] == Stars(|v.text| - 3)[i - 3];
        }
        assert masked == v.text;
      }
    }
  }

  lemma SameMaskForText(key: Option<string>)
    ensures FullyMasked(Some(KeyText(key))) <==> FullyMasked(key)
    ensures PartlyMasked(Some(KeyText(key))) <==> PartlyMasked(key)
  {
    if key.None? {
      assert Trimmed("null");
      TrimmedIsFixed("null");
      assert Normalized(Some("null"))[0] == 'n';
    }
  }

  /** Whatever the tree, its masked form is clean. */
  lemma {:induction false} MaskedIsClean(v: Value, show: Value -> string)
    ensures Clean(MaskObject(v, show))
    decreases v, 0
  {
    match v
    case Items(items) =>
      forall i | 0 <= i < |items| ensures Clean(MaskObject(items[i], show)) {
        MaskedIsClean(items[i], show);
      }
    case Map(entries) =>
      var masked := MaskEntries(v, show);
      AssociateKeeps(masked);
      forall x | x in masked ensures x.key.Some? && CleanByKey(x.key, x.value) {
        var i :| 0 <= i < |masked| && masked[i] == x;
        MaskedByKeyIsClean(entries[i].key, entries[i].value, show);
      }
      var kept := Associate(masked);
      forall i | 0 <= i < |kept| ensures kept[i].key.Some? && CleanByKey(kept[i].key, kept[i].value) {
        assert kept[i] in kept;
      }
    case _ =>
  }

  lemma {:induction false} MaskedByKeyIsClean(key: Option<string>, v: Value, show: Value -> string)
    ensures CleanByKey(Some(KeyText(key)), MaskByKey(key, v, show))
    decreases v, 1
  {
    SameMaskForText(key);
    hide FullyMasked, PartlyMasked;
    if !FullyMasked(key) {
      if PartlyMasked(key) {
        PartialMaskVeils(TextOf(v, show));
      } else {
        MaskedIsClean(v, show);
      }
    }
  }

  lemma {:induction false} CleanIsFixed(v: Value, show: Value -> string)
    requires Clean(v)
    ensures MaskObject(v, show) == v
    decreases v, 0
  {
    match v
    case Items(items) =>
      forall i | 0 <= i < |items| ensures MaskObject(items[i], show) == items[i] {
        CleanIsFixed(items[i], show);
      }
    case Map(entries) =>
      forall i | 0 <= i < |entries| ensures MaskEntries(v, show)[i] == entries[i] {
        CleanByKeyIsFixed(entries[i].key, entries[i].value, show);
      }
      assert MaskEntries(v, show) == entries;
      AssociateKeeps(entries);
    case _ =>
  }

  lemma {:induction false} CleanByKeyIsFixed(key: Option<string>, v: Value, show: Value -> string)
    requires CleanByKey(key, v)
    ensures MaskByKey(key, v, show) == v
    decreases v, 1
  {
    hide FullyMasked, PartlyMasked;
    if !FullyMasked(key) {
      if PartlyMasked(key) {
        VeiledIsFixed(v, show);
      } else {
        CleanIsFixed(v, show);
      }
    }
  }

  /** Masking twice is masking once, whatever the tree and however trees are turned into text. */
  lemma MaskingIsIdempotent(v: Value, show: Value -> string, again: Value -> string)
    ensures MaskObject(MaskObject(v, show), again) == MaskObject(v, show)
  {
    MaskedIsClean(v, show);
    CleanIsFixed(MaskObject(v, show), again);
  }

  /** What a logged entry shows: nothing of a password, a token or a secret, three characters of a login or
      user name, and any other text as it is; whatever the case and the outer space of the key. */
  lemma EntryShows(key: Option<string>, text: string, show: Value -> string)
    ensures var folded := if key.None? then "" else ToLower(Trim(key.value));
            var secret := folded in {"password", "passwordconfirm", "accesstoken", "refreshtoken", "authorization",
                                     "authenticate", "token", "salt", "secret"};
            var name := folded == "loginid" || folded == "username";
            MaskObject(Map([Entry(key, Plain(text))]), show) ==
            Map([Entry(Some(if key.None? then "null" else key.value),
                       if secret then Plain("****")
                       else if !name then Plain(text)
                       else if Trim(text) == "" then Null
                       else if |Trim(text)| <= 3 then Plain(Trim(text))
                       else Plain(Trim(text)[..3] + Stars(|Trim(text)| - 3)))])
  {
    var v := Map([Entry(key, Plain(text))]);
    KeysMeaning(key);
    hide Trim, ToLower, FullyMasked, PartlyMasked;
    var masked := MaskEntries(v, show);
    assert masked == [Entry(Some(KeyText(key)), MaskByKey(key, Plain(text), show))];
    assert masked[..0] == [] && Associate(masked[..0]) == [];
    assert Associate(masked) == Put([], masked[0]);
  }

  lemma KeysMeaning(key: Option<string>)
    ensures FullyMasked(key) <==> Normalized(key) in {"password", "passwordconfirm", "accesstoken", "refreshtoken",
                                                      "authorization", "authenticate", "token", "salt", "secret"}
    ensures PartlyMasked(key) <==> Normalized(key) == "loginid" || Normalized(key) == "username"
    ensures FullyMasked(key) ==> !PartlyMasked(key)
  {
    hide Normalized;
  }

  // ----- Secrets do not reach the log -----

  predicate AlikeByKey(key: Option<string>, v: Value, w: Value)
    decreases v, 1
  {
    if FullyMasked(key) then true
    else if PartlyMasked(key) then v == w
    else Alike(v, w)
  }

  /** The trees differ only in values under fully masked keys, outside partly masked ones. */
  predicate Alike(v: Value, w: Value)
    decreases v, 0
  {
    match v
    case Items(items) =>
      && w.Items? && |w.items| == |items|
      && (forall i | 0 <= i < |items| :: Alike(items[i], w.items[i]))
    case Map(entries) =>
      && w.Map? && |w.entries| == |entries|
      && (forall i | 0 <= i < |entries| ::
            entries[i].key == w.entries[i].key && AlikeByKey(entries[i].key, entries[i].value, w.entries[i].value))
    case _ => v == w
  }

  lemma {:induction false} AlikeMasksTheSame(v: Value, w: Value, show: Value -> string)
    requires Alike(v, w)
    ensures MaskObject(v, show) == MaskObject(w, show)
    decreases v, 0
  {
    match v
    case Items(items) =>
      forall i | 0 <= i < |items| ensures MaskObject(items[i], show) == MaskObject(w.items[i], show) {
        AlikeMasksTheSame(items[i], w.items[i], show);
      }
    case Map(entries) =>
      forall i | 0 <= i < |entries| ensures MaskEntries(v, show)[i] == MaskEntries(w, show)[i] {
        AlikeByKeyMasksTheSame(entries[i].key, entries[i].value, w.entries[i].value, show);
      }
      assert MaskEntries(v, show) == MaskEntries(w, show);
    case _ =>
  }

  lemma {:induction false} AlikeByKeyMasksTheSame(key: Option<string>, v: Value, w: Value, show: Value -> string)
    requires AlikeByKey(key, v, w)
    ensures MaskByKey(key, v, show) == MaskByKey(key, w, show)
    decreases v, 1
  {
    hide FullyMasked, PartlyMasked;
    if !FullyMasked(key) && !PartlyMasked(key) {
      AlikeMasksTheSame(v, w, show);
    }
  }
}

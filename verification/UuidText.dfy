/** Text forms of RFC 9562 identifiers, and splitting text at a separator. */
module UuidText {
  import opened Ids

  const Digits: string := "0123456789abcdef"

  /** Value of a hexadecimal digit of either case; 255 marks anything else. */
  function HexValue(c: char): (v: nat)
    ensures v < 16 || v == 255
  {
    if '0' <= c <= '9' then (c - '0') as nat
    else if 'a' <= c <= 'f' then (c - 'a') as nat + 10
    else if 'A' <= c <= 'F' then (c - 'A') as nat + 10
    else 255
  }

  predicate IsHyphenSlot(k: nat) { k == 8 || k == 13 || k == 18 || k == 23 }

  /** Where the k-th character of the 36 finds its nibble. */
  function NibbleAt(k: nat): nat
    requires k < 36 && !IsHyphenSlot(k)
  {
    if k < 8 then k else if k < 13 then k - 1 else if k < 18 then k - 2 else if k < 23 then k - 3 else k - 4
  }

  function Nibble(id: Uuid, n: nat): (v: nat)
    requires n < 32
    ensures v < 16
  { (if n % 2 == 0 then id.octets[n / 2] / 16 else id.octets[n / 2] % 16) as nat }

  function CharAt(id: Uuid, k: nat): char requires k < 36 {
    if IsHyphenSlot(k) then '-' else Digits[Nibble(id, NibbleAt(k))]
  }

  /** The canonical lower-case form, 8-4-4-4-12. */
  function Print(id: Uuid): (s: string)
    ensures |s| == 36
  { seq(36, k requires 0 <= k < 36 => CharAt(id, k)) }

  /** Offset of octet i in the hyphenated form. */
  function Offset(i: nat): (x: nat)
    requires i < 16
    ensures x < 35 && !IsHyphenSlot(x) && !IsHyphenSlot(x + 1) && NibbleAt(x) == 2 * i && NibbleAt(x + 1) == 2 * i + 1
  {
    if i < 4 then 2 * i else if i < 6 then 2 * i + 1 else if i < 8 then 2 * i + 2 else if i < 10 then 2 * i + 3 else 2 * i + 4
  }

  function OctetOf(high: char, low: char): byte
    requires HexValue(high) < 16 && HexValue(low) < 16
  { (HexValue(high) * 16 + HexValue(low)) as byte }

  predicate Hyphenated(s: string) {
    && |s| == 36 && s[8] == '-' && s[13] == '-' && s[18] == '-' && s[23] == '-'
    && forall i | 0 <= i < 16 :: HexValue(s[Offset(i)]) < 16 && HexValue(s[Offset(i) + 1]) < 16
  }

  function ReadHyphenated(s: string): Uuid requires Hyphenated(s) {
    Uuid(seq(16, i requires 0 <= i < 16 => OctetOf(s[Offset(i)], s[Offset(i) + 1])))
  }

  predicate Compact(s: string) { |s| == 32 && forall i | 0 <= i < 32 :: HexValue(s[i]) < 16 }

  function Lower(c: char): char { if 'A' <= c <= 'Z' then ((c as int - 'A' as int) + 'a' as int) as char else c }

  predicate UrnPrefix(s: string) requires |s| == 9 { forall i | 0 <= i < 9 :: Lower(s[i]) == "urn:uuid:"[i] }

  /** uuid.Parse: hyphenated, URN, one character either side of the hyphenated form, or 32 digits. */
  function Parse(s: string): Option<Uuid> {
    if |s| == 36 then (if Hyphenated(s) then Some(ReadHyphenated(s)) else None)
    else if |s| == 45 then (if UrnPrefix(s[..9]) && Hyphenated(s[9..]) then Some(ReadHyphenated(s[9..])) else None)
    else if |s| == 38 then (if Hyphenated(s[1..37]) then Some(ReadHyphenated(s[1..37])) else None)
    else if Compact(s) then Some(Uuid(seq(16, i requires 0 <= i < 16 => OctetOf(s[2 * i], s[2 * i + 1]))))
    else None
  }

  lemma DigitValue(v: nat)
    requires v < 16
    ensures HexValue(Digits[v]) == v && Digits[v] != '.' && Digits[v] != '/'
  {}

  lemma PrintedPair(id: Uuid, i: nat)
    requires i < 16
    ensures var s := Print(id);
            && HexValue(s[Offset(i)]) < 16 && HexValue(s[Offset(i) + 1]) < 16
            && OctetOf(s[Offset(i)], s[Offset(i) + 1]) == id.octets[i]
  {
    DigitValue(Nibble(id, 2 * i));
    DigitValue(Nibble(id, 2 * i + 1));
    assert Print(id)[Offset(i)] == CharAt(id, Offset(i)) && Print(id)[Offset(i) + 1] == CharAt(id, Offset(i) + 1);
  }

  /** Printing and parsing are inverse on every identifier, and printed text holds no separator. */
  lemma ParsePrint(id: Uuid)
    ensures Parse(Print(id)) == Some(id)
    ensures forall k | 0 <= k < 36 :: Print(id)[k] != '.' && Print(id)[k] != '/'
  {
    var s := Print(id);
    forall i | 0 <= i < 16
      ensures HexValue(s[Offset(i)]) < 16 && HexValue(s[Offset(i) + 1]) < 16 && OctetOf(s[Offset(i)], s[Offset(i) + 1]) == id.octets[i]
    {
      PrintedPair(id, i);
    }
    assert Hyphenated(s);
    assert ReadHyphenated(s).octets == id.octets;
    forall k | 0 <= k < 36 ensures s[k] != '.' && s[k] != '/' {
      if !IsHyphenSlot(k) { DigitValue(Nibble(id, NibbleAt(k))); }
    }
  }

  lemma PrintInjective(a: Uuid, b: Uuid)
    requires Print(a) == Print(b)
    ensures a == b
  {
    ParsePrint(a);
    ParsePrint(b);
  }

  // ---- Every spelling the parser reads ----------------------------------------------------------

  /** A character and its lower-case letter. */
  predicate Folds(c: char, to: char) { if 'A' <= c && c <= 'Z' then to as int == c as int + 32 else to == c }

  /** The same text but for the case of its letters. */
  predicate Spells(s: string, text: string) { |s| == |text| && forall k | 0 <= k < |s| :: Folds(s[k], text[k]) }

  /** The canonical form without its hyphens. */
  function PrintCompact(id: Uuid): (s: string)
    ensures |s| == 32
  { seq(32, n requires 0 <= n < 32 => Digits[Nibble(id, n)]) }

  lemma HexIff(c: char, v: nat)
    requires v < 16
    ensures HexValue(c) == v <==> Folds(c, Digits[v])
  {}

  lemma PlaceOfNibble(k: nat)
    requires k < 36 && !IsHyphenSlot(k)
    ensures NibbleAt(k) < 32 && k == Offset(NibbleAt(k) / 2) + NibbleAt(k) % 2
  {}

  /** Two digits read as the octet exactly when they spell it. */
  predicate Pair(high: char, low: char, octet: byte) { HexValue(high) < 16 && HexValue(low) < 16 && OctetOf(high, low) == octet }

  lemma PairIff(high: char, low: char, octet: byte)
    ensures Pair(high, low, octet) <==> Folds(high, Digits[octet / 16]) && Folds(low, Digits[octet % 16])
  {
    HexIff(high, (octet / 16) as nat);
    HexIff(low, (octet % 16) as nat);
  }

  predicate ReadsPairs(s: string, id: Uuid) requires |s| == 36 {
    && s[8] == '-' && s[13] == '-' && s[18] == '-' && s[23] == '-'
    && forall i | 0 <= i < 16 :: Pair(s[Offset(i)], s[Offset(i) + 1], id.octets[i])
  }

  lemma HyphenatedReads(s: string, id: Uuid)
    requires |s| == 36
    ensures Hyphenated(s) && ReadHyphenated(s) == id <==> ReadsPairs(s, id)
  {
    if Hyphenated(s) {
      assert forall i | 0 <= i < 16 :: ReadHyphenated(s).octets[i] == OctetOf(s[Offset(i)], s[Offset(i) + 1]);
      if ReadsPairs(s, id) {
        forall i | 0 <= i < 16 ensures ReadHyphenated(s).octets[i] == id.octets[i] { assert Pair(s[Offset(i)], s[Offset(i) + 1], id.octets[i]); }
        assert ReadHyphenated(s).octets == id.octets;
      }
    }
  }

  lemma PairSpells(s: string, id: Uuid, k: nat)
    requires |s| == 36 && ReadsPairs(s, id) && k < 36
    ensures Folds(s[k], Print(id)[k])
  {
    assert Print(id)[k] == CharAt(id, k);
    if !IsHyphenSlot(k) {
      PlaceOfNibble(k);
      var i := NibbleAt(k) / 2;
      assert Pair(s[Offset(i)], s[Offset(i) + 1], id.octets[i]);
      PairIff(s[Offset(i)], s[Offset(i) + 1], id.octets[i]);
    }
  }

  lemma SpelledPair(s: string, id: Uuid, i: nat)
    requires Spells(s, Print(id)) && i < 16
    ensures Pair(s[Offset(i)], s[Offset(i) + 1], id.octets[i])
  {
    assert Print(id)[Offset(i)] == CharAt(id, Offset(i)) && Print(id)[Offset(i) + 1] == CharAt(id, Offset(i) + 1);
    PairIff(s[Offset(i)], s[Offset(i) + 1], id.octets[i]);
  }

  lemma HyphenatedIff(s: string, id: Uuid)
    ensures Hyphenated(s) && ReadHyphenated(s) == id <==> Spells(s, Print(id))
  {
    if |s| == 36 {
      HyphenatedReads(s, id);
      if ReadsPairs(s, id) {
        forall k | 0 <= k < 36 ensures Folds(s[k], Print(id)[k]) { PairSpells(s, id, k); }
      }
      if Spells(s, Print(id)) {
        forall i | 0 <= i < 16 ensures Pair(s[Offset(i)], s[Offset(i) + 1], id.octets[i]) { SpelledPair(s, id, i); }
        assert CharAt(id, 8) == '-' && CharAt(id, 13) == '-' && CharAt(id, 18) == '-' && CharAt(id, 23) == '-';
      }
    }
  }

  predicate CompactPairs(s: string, id: Uuid) requires |s| == 32 { forall i | 0 <= i < 16 :: Pair(s[2 * i], s[2 * i + 1], id.octets[i]) }

  lemma CompactReads(s: string, id: Uuid)
    requires |s| == 32
    ensures Parse(s) == Some(id) <==> CompactPairs(s, id)
  {
    if CompactPairs(s, id) {
      forall n | 0 <= n < 32 ensures HexValue(s[n]) < 16 { assert Pair(s[2 * (n / 2)], s[2 * (n / 2) + 1], id.octets[n / 2]); }
    }
    if Compact(s) {
      var octets := seq(16, i requires 0 <= i < 16 => OctetOf(s[2 * i], s[2 * i + 1]));
      assert forall i | 0 <= i < 16 :: octets[i] == OctetOf(s[2 * i], s[2 * i + 1]);
      if CompactPairs(s, id) {
        forall i | 0 <= i < 16 ensures octets[i] == id.octets[i] { assert Pair(s[2 * i], s[2 * i + 1], id.octets[i]); }
        assert octets == id.octets;
      }
      if octets == id.octets {
        forall i | 0 <= i < 16 ensures Pair(s[2 * i], s[2 * i + 1], id.octets[i]) { assert octets[i] == id.octets[i]; }
      }
    }
  }

  lemma CompactPairSpells(s: string, id: Uuid, i: nat)
    requires |s| == 32 && i < 16
    ensures Pair(s[2 * i], s[2 * i + 1], id.octets[i]) <==> Folds(s[2 * i], PrintCompact(id)[2 * i]) && Folds(s[2 * i + 1], PrintCompact(id)[2 * i + 1])
  {
    assert PrintCompact(id)[2 * i] == Digits[Nibble(id, 2 * i)] && PrintCompact(id)[2 * i + 1] == Digits[Nibble(id, 2 * i + 1)];
    PairIff(s[2 * i], s[2 * i + 1], id.octets[i]);
  }

  lemma CompactIff(s: string, id: Uuid)
    requires |s| == 32
    ensures Parse(s) == Some(id) <==> Spells(s, PrintCompact(id))
  {
    CompactReads(s, id);
    forall i | 0 <= i < 16
      ensures Pair(s[2 * i], s[2 * i + 1], id.octets[i]) <==> Folds(s[2 * i], PrintCompact(id)[2 * i]) && Folds(s[2 * i + 1], PrintCompact(id)[2 * i + 1])
    {
      CompactPairSpells(s, id, i);
    }
    PairsCoverAll(s, PrintCompact(id));
  }

  /** Sixteen pairs are all thirty-two characters. */
  lemma PairsCoverAll(s: string, text: string)
    requires |s| == |text| == 32
    ensures Spells(s, text) <==> forall i | 0 <= i < 16 :: Folds(s[2 * i], text[2 * i]) && Folds(s[2 * i + 1], text[2 * i + 1])
  {
    if forall i | 0 <= i < 16 :: Folds(s[2 * i], text[2 * i]) && Folds(s[2 * i + 1], text[2 * i + 1]) {
      forall k | 0 <= k < 32 ensures Folds(s[k], text[k]) { assert k == 2 * (k / 2) || k == 2 * (k / 2) + 1; }
    }
  }

  /**
   * What reads as an identifier, letters of either case: its canonical form, that form as a URN or with one
   * character of any kind at either end, or its digits alone.
   */
  lemma ParsedIff(s: string, id: Uuid)
    ensures Parse(s) == Some(id) <==>
              || Spells(s, Print(id))
              || (|s| == 45 && Spells(s[..9], "urn:uuid:") && Spells(s[9..], Print(id)))
              || (|s| == 38 && Spells(s[1..37], Print(id)))
              || Spells(s, PrintCompact(id))
  {
    HyphenatedIff(s, id);
    if |s| == 45 {
      HyphenatedIff(s[9..], id);
      assert UrnPrefix(s[..9]) <==> Spells(s[..9], "urn:uuid:") by {
        assert forall k | 0 <= k < 9 :: Lower(s[..9][k]) == "urn:uuid:"[k] <==> Folds(s[..9][k], "urn:uuid:"[k]);
      }
    }
    if |s| == 38 { HyphenatedIff(s[1..37], id); }
    if |s| == 32 { CompactIff(s, id); }
  }

  // ---- strings.Split and its inverse ------------------------------------------------------------

  predicate Free(s: string, sep: char) { forall i | 0 <= i < |s| :: s[i] != sep }

  function Split(s: string, sep: char): (parts: seq<string>)
    ensures |parts| >= 1
    decreases |s|
  {
    if s == [] then [[]]
    else
      var rest := Split(s[1..], sep);
      if s[0] == sep then [[]] + rest else [[s[0]] + rest[0]] + rest[1..]
  }

  function Join(parts: seq<string>, sep: char): string requires |parts| >= 1 {
    if |parts| == 1 then parts[0] else parts[0] + [sep] + Join(parts[1..], sep)
  }

  lemma {:induction false} SplitFree(s: string, sep: char)
    requires Free(s, sep)
    ensures Split(s, sep) == [s]
    decreases |s|
  {
    if s != [] {
      assert forall i | 0 <= i < |s[1..]| :: s[1..][i] == s[i + 1];
      SplitFree(s[1..], sep);
      assert [s[0]] + s[1..] == s;
    }
  }

  lemma {:induction false} SplitAtFirst(head: string, sep: char, tail: string)
    requires Free(head, sep)
    ensures Split(head + [sep] + tail, sep) == [head] + Split(tail, sep)
    decreases |head|
  {
    var s := head + [sep] + tail;
    if head == [] {
      assert s[1..] == tail;
    } else {
      assert s[0] == head[0] && s[1..] == head[1..] + [sep] + tail;
      assert forall i | 0 <= i < |head[1..]| :: head[1..][i] == head[i + 1];
      SplitAtFirst(head[1..], sep, tail);
      assert [head[0]] + head[1..] == head;
    }
  }

  lemma {:induction false} SplitJoin(parts: seq<string>, sep: char)
    requires |parts| >= 1 && forall i | 0 <= i < |parts| :: Free(parts[i], sep)
    ensures Split(Join(parts, sep), sep) == parts
    decreases |parts|
  {
    if |parts| == 1 {
      SplitFree(parts[0], sep);
    } else {
      SplitJoin(parts[1..], sep);
      SplitAtFirst(parts[0], sep, Join(parts[1..], sep));
    }
  }

  lemma {:induction false} JoinSplit(s: string, sep: char)
    ensures Join(Split(s, sep), sep) == s
    decreases |s|
  {
    if s != [] {
      JoinSplit(s[1..], sep);
      var rest := Split(s[1..], sep);
      if s[0] == sep {
        assert ([[]] + rest)[1..] == rest;
      } else {
        var parts := [[s[0]] + rest[0]] + rest[1..];
        assert parts[1..] == rest[1..];
        if |rest| > 1 { assert Join(rest, sep) == rest[0] + [sep] + Join(rest[1..], sep); }
      }
    }
  }
}

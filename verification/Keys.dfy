/** Textual identifiers: UUID spellings, the rendered effect key and the in-memory
    idempotency key. */
module Keys {

  const DASHES: set<nat> := {8, 13, 18, 23}

  predicate HexDigit(c: char) {
    '0' <= c <= '9' || 'a' <= c <= 'f' || 'A' <= c <= 'F'
  }

  predicate UuidCharAt(index: nat, c: char) {
    if index in DASHES then c == '-' else HexDigit(c)
  }

  /** The 8-4-4-4-12 text form of section 4 of RFC 9562, in either letter case. */
  predicate IsUuid(value: string) {
    |value| == 36 && forall i :: 0 <= i < |value| ==> UuidCharAt(i, value[i])
  }

  /** The scan the worker applies to the run identifier of a message. */
  method CheckUuid(value: string) returns (ok: bool)
    ensures ok == IsUuid(value)
  {
    if |value| != 36 {
      return false;
    }
    for index := 0 to |value|
      invariant forall i :: 0 <= i < index ==> UuidCharAt(i, value[i])
    {
      var c := value[index];
      if index == 8 || index == 13 || index == 18 || index == 23 {
        if c != '-' {
          return false;
        }
        continue;
      }
      if !(('0' <= c && c <= '9') || ('a' <= c && c <= 'f') || ('A' <= c && c <= 'F')) {
        return false;
      }
    }
    return true;
  }

  function LowerHex(c: char): char {
    if 'A' <= c <= 'F' then 'a' + (c - 'A') else c
  }

  /** The text PostgreSQL prints for the uuid that `value` denotes. */
  function Canonical(value: string): (text: string)
    ensures |text| == |value|
  {
    seq(|value|, i requires 0 <= i < |value| => LowerHex(value[i]))
  }

  /** The value of a hexadecimal digit; -1 for anything else. */
  function HexValue(c: char): int {
    if '0' <= c <= '9' then c as int - '0' as int
    else if 'a' <= c <= 'f' then c as int - 'a' as int + 10
    else if 'A' <= c <= 'F' then c as int - 'A' as int + 10
    else -1
  }

  /** The two texts have the same digits, written in whatever case. */
  predicate SameDigits(a: string, b: string) {
    |a| == |b| && forall i :: 0 <= i < |a| ==> HexValue(a[i]) == HexValue(b[i])
  }

  /** The canonical text is an accepted spelling of the same digits without capitals, and two
      spellings have one canonical text exactly when their digits agree. */
  lemma CanonicalSpelling(value: string, other: string)
    requires IsUuid(value) && IsUuid(other)
    ensures IsUuid(Canonical(value)) && Canonical(Canonical(value)) == Canonical(value) && SameDigits(value, Canonical(value))
    ensures forall i :: 0 <= i < |value| ==> !('A' <= Canonical(value)[i] <= 'F')
    ensures Canonical(value) == Canonical(other) <==> SameDigits(value, other)
  {
    forall i | 0 <= i < |value| ensures UuidCharAt(i, Canonical(value)[i]) && HexValue(value[i]) == HexValue(Canonical(value)[i]) {
      assert UuidCharAt(i, value[i]);
    }
    if SameDigits(value, other) {
      forall i | 0 <= i < |value| ensures Canonical(value)[i] == Canonical(other)[i] {
        assert UuidCharAt(i, value[i]) && UuidCharAt(i, other[i]);
      }
    }
    if Canonical(value) == Canonical(other) {
      forall i | 0 <= i < |value| ensures HexValue(value[i]) == HexValue(other[i]) {
        assert Canonical(value)[i] == Canonical(other)[i];
        assert UuidCharAt(i, value[i]) && UuidCharAt(i, other[i]);
      }
    }
  }

  function Digit(d: nat): char
    requires d < 10
  {
    '0' + d as char
  }

  function Decimal(n: nat): string {
    if n < 10 then [Digit(n)] else Decimal(n / 10) + [Digit(n % 10)]
  }

  function DigitValue(c: char): int {
    c as int - '0' as int
  }

  function ParseDecimal(text: string): int {
    if text == "" then 0 else 10 * ParseDecimal(text[..|text| - 1]) + DigitValue(text[|text| - 1])
  }

  lemma {:induction false} DecimalRoundTrip(n: nat)
    ensures ParseDecimal(Decimal(n)) == n
    ensures forall c :: c in Decimal(n) ==> c != ':'
  {
    if n < 10 {
      assert Decimal(n)[..0] == "";
      assert ParseDecimal(Decimal(n)[..0]) == 0;
    } else {
      DecimalRoundTrip(n / 10);
      var head := Decimal(n / 10);
      assert Decimal(n)[..|Decimal(n)| - 1] == head;
    }
  }

  const EFFECT_SUFFIX := ":mock-ticket"

  /** `runID:index:mock-ticket`, with the run ID exactly as the message spelled it. */
  function EffectKey(runId: string, index: nat): string {
    runId + ":" + Decimal(index) + EFFECT_SUFFIX
  }

  lemma {:induction false} DecimalDigits(n: nat)
    ensures Decimal(n) != "" && forall i :: 0 <= i < |Decimal(n)| ==> '0' <= Decimal(n)[i] <= '9'
    ensures n > 0 ==> Decimal(n)[0] != '0'
  {
    if n >= 10 {
      DecimalDigits(n / 10);
    }
  }

  /** The key reads `runID:index:mock-ticket`, the index in decimal without leading zeros. */
  lemma EffectKeyReads(runId: string, index: nat) returns (digits: string)
    ensures EffectKey(runId, index) == runId + ":" + digits + ":mock-ticket"
    ensures ParseDecimal(digits) == index && digits != "" && (|digits| > 1 ==> digits[0] != '0')
    ensures forall i :: 0 <= i < |digits| ==> '0' <= digits[i] <= '9'
  {
    digits := Decimal(index);
    DecimalRoundTrip(index);
    DecimalDigits(index);
  }

  lemma {:induction false} LastColon(a1: string, d1: string, a2: string, d2: string)
    requires a1 + ":" + d1 == a2 + ":" + d2
    requires ':' !in d1 && ':' !in d2
    ensures a1 == a2 && d1 == d2
  {
    var text, same := a1 + ":" + d1, a2 + ":" + d2;
    assert text[|a1|] == ':' && same[|a2|] == ':';
    assert forall k :: |a1| < k < |text| ==> text[k] == d1[k - |a1| - 1];
    assert forall k :: |a2| < k < |same| ==> same[k] == d2[k - |a2| - 1];
    assert |a1| == |a2|;
    assert text[..|a1|] == a1 && same[..|a2|] == a2;
    assert text[|a1| + 1..] == d1 && same[|a2| + 1..] == d2;
  }

  /** Rendered keys collide exactly when spelling and step agree, for every run text. */
  lemma EffectKeyInjective(r1: string, i1: nat, r2: string, i2: nat)
    ensures EffectKey(r1, i1) == EffectKey(r2, i2) <==> r1 == r2 && i1 == i2
  {
    if EffectKey(r1, i1) == EffectKey(r2, i2) {
      var p1, p2 := r1 + ":" + Decimal(i1), r2 + ":" + Decimal(i2);
      assert |p1| == |p2|;
      assert EffectKey(r1, i1)[..|p1|] == p1 && EffectKey(r2, i2)[..|p2|] == p2;
      DecimalRoundTrip(i1);
      DecimalRoundTrip(i2);
      LastColon(r1, Decimal(i1), r2, Decimal(i2));
    }
  }

  /** Two spellings of one uuid render different keys, so the ledger protects a step only
      as long as every message spells the run the same way. */
  lemma SpellingMatters(value: string, index: nat)
    requires IsUuid(value)
    ensures EffectKey(value, index) == EffectKey(Canonical(value), index) <==> value == Canonical(value)
  {
    EffectKeyInjective(value, index, Canonical(value), index);
  }

  /** The map key of the in-memory idempotency table. */
  function MemoryKey(tenant: string, key: string): string {
    tenant + ":" + key
  }

  /** `t2` continues `t1` past a colon, and `k1` makes up the difference. */
  ghost predicate Straddles(t1: string, k1: string, t2: string, k2: string) {
    exists m: string :: t2 == t1 + ":" + m && k1 == m + ":" + k2
  }

  /** Exactly when two (tenant, key) pairs share an in-memory entry. */
  lemma MemoryKeyCollision(t1: string, k1: string, t2: string, k2: string)
    ensures MemoryKey(t1, k1) == MemoryKey(t2, k2) <==>
            (t1 == t2 && k1 == k2) || Straddles(t1, k1, t2, k2) || Straddles(t2, k2, t1, k1)
  {
    if Straddles(t1, k1, t2, k2) {
      var m: string :| t2 == t1 + ":" + m && k1 == m + ":" + k2;
      assert MemoryKey(t1, k1) == MemoryKey(t2, k2);
    }
    if Straddles(t2, k2, t1, k1) {
      var m: string :| t1 == t2 + ":" + m && k2 == m + ":" + k1;
      assert MemoryKey(t1, k1) == MemoryKey(t2, k2);
    }
    if MemoryKey(t1, k1) == MemoryKey(t2, k2) {
      if |t1| == |t2| {
        assert MemoryKey(t1, k1)[..|t1|] == t1 && MemoryKey(t2, k2)[..|t2|] == t2;
        assert MemoryKey(t1, k1)[|t1| + 1..] == k1 && MemoryKey(t2, k2)[|t2| + 1..] == k2;
      } else if |t1| < |t2| {
        Straddle(t1, k1, t2, k2);
      } else {
        Straddle(t2, k2, t1, k1);
      }
    }
  }

  lemma Straddle(t1: string, k1: string, t2: string, k2: string)
    requires MemoryKey(t1, k1) == MemoryKey(t2, k2) && |t1| < |t2|
    ensures Straddles(t1, k1, t2, k2)
  {
    var whole := MemoryKey(t1, k1);
    var m := t2[|t1| + 1..];
    assert whole[..|t2|] == t2 && whole[|t1|] == ':' && t2[|t1|] == ':';
    assert whole[..|t1|] == t1;
    assert t2 == t2[..|t1|] + [t2[|t1|]] + m;
    assert k1 == whole[|t1| + 1..];
    assert k1 == m + ":" + k2 by {
      assert whole == t1 + ":" + m + ":" + k2;
    }
  }

  /** Tenants without a colon, such as the uuids PostgreSQL issues, never collide. */
  lemma MemoryKeyInjective(t1: string, k1: string, t2: string, k2: string)
    requires ':' !in t1 && ':' !in t2
    ensures MemoryKey(t1, k1) == MemoryKey(t2, k2) <==> t1 == t2 && k1 == k2
  {
    MemoryKeyCollision(t1, k1, t2, k2);
    assert forall m: string :: ':' in t1 + ":" + m && ':' in t2 + ":" + m by {
      forall m: string ensures ':' in t1 + ":" + m && ':' in t2 + ":" + m {
        assert (t1 + ":" + m)[|t1|] == ':' && (t2 + ":" + m)[|t2|] == ':';
      }
    }
  }
}

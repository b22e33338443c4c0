/**
 * UUIDs as the store uses them: 128-bit values, the all-zero `Nil` value, the
 * canonical 36-character text form written by `uuid.UUID.String`, and a
 * deterministic enumeration of a set of keys.
 */
module Ids {

  /** A UUID read as an unsigned 128-bit integer (most significant byte first). */
  newtype Uuid = x: int | 0 <= x < 0x1_0000_0000_0000_0000_0000_0000_0000_0000

  /** `uuid.Nil`, the zero value of a Go `uuid.UUID`. */
  const Nil: Uuid := 0

  // ---------------------------------------------------------------------------
  // Least element and ordered enumeration of a key set
  // ---------------------------------------------------------------------------

  predicate IsLeast(m: Uuid, s: set<Uuid>) {
    m in s && forall x :: x in s ==> m <= x
  }

  lemma {:induction false} LeastExists(s: set<Uuid>)
    requires s != {}
    ensures exists m :: IsLeast(m, s)
    decreases |s|
  {
    var y :| y in s;
    if s == {y} {
      assert IsLeast(y, s);
    } else {
      var rest := s - {y};
      LeastExists(rest);
      var m :| IsLeast(m, rest);
      var least := if y < m then y else m;
      forall x | x in s
        ensures least <= x
      {
        if x != y {
          assert x in rest;
        }
      }
      assert IsLeast(least, s);
    }
  }

  /** The least element of a non-empty set of UUIDs. */
  function Least(s: set<Uuid>): (m: Uuid)
    requires s != {}
    ensures m in s
    ensures forall x :: x in s ==> m <= x
  {
    LeastExists(s);
    var m :| IsLeast(m, s);
    m
  }

  /**
   * The keys of `s` in ascending order. Go enumerates map keys in an
   * unspecified order; this is one such order, fixed so that listings are
   * deterministic.
   */
  function SortedKeys(s: set<Uuid>): (ks: seq<Uuid>)
    ensures |ks| == |s|
    ensures forall k :: k in ks <==> k in s
    ensures forall i, j :: 0 <= i < j < |ks| ==> ks[i] < ks[j]
    decreases |s|
  {
    if s == {} then []
    else
      var m := Least(s);
      var rest := SortedKeys(s - {m});
      SortedCons(s, m, rest);
      [m] + rest
  }

  /** Putting the least element in front of an ascending listing of the others lists the whole set in ascending order. */
  lemma SortedCons(s: set<Uuid>, m: Uuid, rest: seq<Uuid>)
    requires IsLeast(m, s)
    requires |rest| == |s - {m}|
    requires forall k :: k in rest <==> k in s - {m}
    requires forall i, j :: 0 <= i < j < |rest| ==> rest[i] < rest[j]
    ensures |[m] + rest| == |s|
    ensures forall k :: k in [m] + rest <==> k in s
    ensures forall i, j :: 0 <= i < j < |[m] + rest| ==> ([m] + rest)[i] < ([m] + rest)[j]
  {
    var ks := [m] + rest;
    forall i, j | 0 <= i < j < |ks|
      ensures ks[i] < ks[j]
    {
      assert ks[j] == rest[j - 1] && rest[j - 1] in s - {m};
      if i > 0 {
        assert ks[i] == rest[i - 1];
      }
    }
  }

  /**
   * Every value of `m`, once per key: what `for _, v := range m { out =
   * append(out, *v) }` collects.
   */
  function Values<V(==)>(m: map<Uuid, V>): (vs: seq<V>)
    ensures Enumerates(vs, m)
  {
    var ks := SortedKeys(m.Keys);
    var vs := seq(|ks|, i requires 0 <= i < |ks| => m[ks[i]]);
    ValuesCover(m, ks, vs);
    assert EnumeratedBy(vs, m, ks);
    vs
  }

  /** `vs` holds the values of `m` read along `ks`, a listing of its keys with no repeats. */
  ghost predicate EnumeratedBy<V>(vs: seq<V>, m: map<Uuid, V>, ks: seq<Uuid>) {
    && |ks| == |vs|
    && (forall k :: k in ks <==> k in m)
    && (forall i, j :: 0 <= i < j < |ks| ==> ks[i] != ks[j])
    && (forall i :: 0 <= i < |vs| ==> vs[i] == m[ks[i]])
  }

  /**
   * `vs` lists the values of `m`: one entry per key, in some key order, so
   * every stored value appears and nothing else does.
   */
  ghost predicate Enumerates<V>(vs: seq<V>, m: map<Uuid, V>) {
    && |vs| == |m|
    && (forall k :: k in m ==> m[k] in vs)
    && (forall v :: v in vs ==> v in m.Values)
    && exists ks :: EnumeratedBy(vs, m, ks)
  }

  lemma ValuesCover<V>(m: map<Uuid, V>, ks: seq<Uuid>, vs: seq<V>)
    requires forall k :: k in ks <==> k in m
    requires |vs| == |ks| && forall i :: 0 <= i < |ks| ==> vs[i] == m[ks[i]]
    ensures forall k :: k in m ==> m[k] in vs
    ensures forall v :: v in vs ==> v in m.Values
  {
  }

  // ---------------------------------------------------------------------------
  // Canonical text form
  // ---------------------------------------------------------------------------

  predicate IsHexDigit(c: char) {
    '0' <= c <= '9' || 'a' <= c <= 'f'
  }

  /** The lower-case hexadecimal digit for `d`. */
  function HexDigit(d: nat): (c: char)
    requires d < 16
    ensures IsHexDigit(c)
  {
    if d < 10 then ('0' as int + d) as char else ('a' as int + d - 10) as char
  }

  function DigitValue(c: char): (d: nat)
    requires IsHexDigit(c)
    ensures d < 16 && HexDigit(d) == c
  {
    if '0' <= c <= '9' then c as int - '0' as int else c as int - 'a' as int + 10
  }

  function Pow16(n: nat): (p: nat)
    ensures p >= 1
  {
    if n == 0 then 1 else 16 * Pow16(n - 1)
  }

  /** `n` written with exactly `width` hex digits, most significant first. */
  function ToHex(n: nat, width: nat): (s: string)
    ensures |s| == width
    ensures forall i :: 0 <= i < |s| ==> IsHexDigit(s[i])
  {
    if width == 0 then "" else ToHex(n / 16, width - 1) + [HexDigit(n % 16)]
  }

  /** The number a string of hex digits denotes. */
  function FromHex(s: string): nat
    requires forall i :: 0 <= i < |s| ==> IsHexDigit(s[i])
  {
    if s == [] then 0 else FromHex(s[..|s| - 1]) * 16 + DigitValue(s[|s| - 1])
  }

  lemma {:induction false} HexRoundTrip(n: nat, width: nat)
    requires n < Pow16(width)
    ensures FromHex(ToHex(n, width)) == n
  {
    if width > 0 {
      var s := ToHex(n, width);
      assert s[..|s| - 1] == ToHex(n / 16, width - 1);
      HexRoundTrip(n / 16, width - 1);
      assert DigitValue(HexDigit(n % 16)) == n % 16;
    }
  }

  predicate IsDashPosition(i: int) {
    i == 8 || i == 13 || i == 18 || i == 23
  }

  /** The number of dashes in front of position `j` of the 36-character form. */
  function DashesBefore(j: int): nat {
    if j <= 8 then 0 else if j <= 13 then 1 else if j <= 18 then 2 else if j <= 23 then 3 else 4
  }

  /** `u.String()`: 32 hex digits grouped 8-4-4-4-12 and joined by dashes. */
  function UuidString(u: Uuid): (s: string)
    ensures |s| == 36
    ensures forall i :: 0 <= i < 36 ==> (s[i] == '-' <==> IsDashPosition(i))
    ensures forall i :: 0 <= i < 36 && !IsDashPosition(i) ==> IsHexDigit(s[i])
  {
    var h := ToHex(u as nat, 32);
    seq(36, j requires 0 <= j < 36 => if IsDashPosition(j) then '-' else h[j - DashesBefore(j)])
  }

  /** Where hex digit `i` sits in the 36-character form. */
  function TextPosition(i: int): (p: int)
    ensures 0 <= i < 32 ==> 0 <= p < 36 && !IsDashPosition(p) && p - DashesBefore(p) == i
  {
    if i < 8 then i else if i < 12 then i + 1 else if i < 16 then i + 2 else if i < 20 then i + 3 else i + 4
  }

  /** The 32 hex digits of a canonical UUID text, dashes removed. */
  function HexDigitsOf(s: string): (h: string)
    requires |s| == 36
    requires forall i :: 0 <= i < 36 && !IsDashPosition(i) ==> IsHexDigit(s[i])
    ensures |h| == 32
    ensures forall i :: 0 <= i < 32 ==> IsHexDigit(h[i])
  {
    seq(32, i requires 0 <= i < 32 => s[TextPosition(i)])
  }

  /** Reads back the value a canonical 36-character UUID text denotes. */
  function UuidValue(s: string): nat
    requires |s| == 36
    requires forall i :: 0 <= i < 36 && !IsDashPosition(i) ==> IsHexDigit(s[i])
  {
    FromHex(HexDigitsOf(s))
  }

  lemma {:induction false} Pow16Add(a: nat, b: nat)
    ensures Pow16(a + b) == Pow16(a) * Pow16(b)
  {
    if a > 0 {
      Pow16Add(a - 1, b);
    }
  }

  /** Every UUID fits in 32 hex digits. */
  lemma UuidFitsHex(u: Uuid)
    ensures (u as nat) < Pow16(32)
  {
    Pow16Add(8, 8);
    Pow16Add(16, 16);
    assert Pow16(8) == 0x1_0000_0000;
  }

  /** The text form of a UUID names that UUID and no other. */
  lemma UuidStringRoundTrip(u: Uuid)
    ensures UuidValue(UuidString(u)) == u as nat
  {
    var h := ToHex(u as nat, 32);
    assert HexDigitsOf(UuidString(u)) == h;
    UuidFitsHex(u);
    HexRoundTrip(u as nat, 32);
  }

  lemma UuidStringInjective(u: Uuid, v: Uuid)
    requires UuidString(u) == UuidString(v)
    ensures u == v
  {
    UuidStringRoundTrip(u);
    UuidStringRoundTrip(v);
  }
}

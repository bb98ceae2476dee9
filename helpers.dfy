/**
 * The resolvers' helpers (internal/resolvers/helpers.go): the URL detector
 * of helpers.go, which no other code calls, written as a leftmost scanner for the
 * regular expression https?://[^\s]+ with RE2's leftmost-first, greedy
 * semantics, and min.
 */
module Helpers {
  import opened Base

  /** RE2's \s: tab, newline, form feed, carriage return and space (not vertical tab). */
  predicate IsSpace(b: byte) {
    b == 9 || b == 10 || b == 12 || b == 13 || b == 32
  }

  predicate NoSpace(s: Bytes) {
    forall k :: 0 <= k < |s| ==> !IsSpace(s[k])
  }

  function HttpScheme(): (r: Bytes)
    ensures |r| == 7
  {
    Ascii("http://")
  }

  function HttpsScheme(): (r: Bytes)
    ensures |r| == 8
  {
    Ascii("https://")
  }

  /** text[a..b] is a match of https?://[^\s]+: a scheme and at least one non-space byte after it. */
  predicate IsURLAt(text: Bytes, a: nat, b: nat) {
    && a <= b <= |text|
    && ((HasPrefix(text[a..b], HttpsScheme()) && a + 8 < b && NoSpace(text[a + 8..b])) ||
        (HasPrefix(text[a..b], HttpScheme()) && a + 7 < b && NoSpace(text[a + 7..b])))
  }

  /** The end of the run of non-space bytes of text that starts at i. */
  function SpanEnd(text: Bytes, i: nat): (j: nat)
    requires i <= |text|
    ensures i <= j <= |text|
    ensures NoSpace(text[i..j])
    ensures j == |text| || IsSpace(text[j])
    decreases |text| - i
  {
    if i == |text| || IsSpace(text[i]) then i
    else
      var j := SpanEnd(text, i + 1);
      assert forall k :: 0 < k < j - i ==> text[i..j][k] == text[i + 1..j][k - 1];
      j
  }

  /**
   * The end of the match that starts at a, or a when none does: the optional
   * s is tried first, and [^\s]+ takes the whole run of non-space bytes.
   */
  function MatchEnd(text: Bytes, a: nat): (b: nat)
    requires a <= |text|
    ensures a <= b <= |text|
  {
    var rest := text[a..];
    var k := if HasPrefix(rest, HttpsScheme()) then 8 else if HasPrefix(rest, HttpScheme()) then 7 else 0;
    if k == 0 then a
    else
      var j := SpanEnd(text, a + k);
      if j == a + k then a else j
  }

  lemma SchemesExclusive(s: Bytes)
    ensures !(HasPrefix(s, HttpsScheme()) && HasPrefix(s, HttpScheme()))
  {
    assert HttpsScheme()[4] != HttpScheme()[4];
  }

  lemma PrefixOfSlice(text: Bytes, a: nat, b: nat, p: Bytes)
    requires a <= b <= |text| && |p| <= b - a
    ensures HasPrefix(text[a..b], p) <==> HasPrefix(text[a..], p)
  {
    assert text[a..b][..|p|] == text[a..][..|p|];
  }

  /** A longer run of non-space bytes than SpanEnd finds would have to cross a space. */
  lemma SpanEndLongest(text: Bytes, i: nat, b: nat)
    requires i <= b <= |text| && NoSpace(text[i..b])
    ensures b <= SpanEnd(text, i)
  {
  }

  /** MatchEnd finds a match exactly when one starts at a, and then the longest, which ends at a space or the end. */
  lemma {:induction false} MatchEndSpec(text: Bytes, a: nat)
    requires a <= |text|
    ensures MatchEnd(text, a) > a ==> IsURLAt(text, a, MatchEnd(text, a))
    ensures MatchEnd(text, a) > a ==> MatchEnd(text, a) == |text| || IsSpace(text[MatchEnd(text, a)])
    ensures forall b: nat :: IsURLAt(text, a, b) ==> a < b <= MatchEnd(text, a)
  {
    var e := MatchEnd(text, a);
    SchemesExclusive(text[a..]);
    if e > a {
      PrefixOfSlice(text, a, e, if HasPrefix(text[a..], HttpsScheme()) then HttpsScheme() else HttpScheme());
    }
    forall b: nat | IsURLAt(text, a, b) ensures a < b <= e {
      if HasPrefix(text[a..b], HttpsScheme()) && a + 8 < b && NoSpace(text[a + 8..b]) {
        PrefixOfSlice(text, a, b, HttpsScheme());
        SpanEndLongest(text, a + 8, b);
        assert text[a + 8..b][0] == text[a + 8];
      } else {
        PrefixOfSlice(text, a, b, HttpScheme());
        SchemesExclusive(text[a..]);
        SpanEndLongest(text, a + 7, b);
        assert text[a + 7..b][0] == text[a + 7];
      }
    }
  }

  /** The leftmost match at or after i, as (start, end): the first start position where MatchEnd finds one. */
  function Scan(text: Bytes, i: nat): (m: Option<(nat, nat)>)
    requires i <= |text|
    ensures m.Some? ==> i <= m.value.0 < m.value.1 <= |text| && m.value.1 == MatchEnd(text, m.value.0)
    ensures m.Some? ==> forall a :: i <= a < m.value.0 ==> MatchEnd(text, a) == a
    ensures m.None? ==> forall a :: i <= a <= |text| ==> MatchEnd(text, a) == a
    decreases |text| - i
  {
    if MatchEnd(text, i) > i then Some((i, MatchEnd(text, i)))
    else if i == |text| then None
    else Scan(text, i + 1)
  }

  /** Where MatchEnd finds nothing, no match starts. */
  lemma NoURLAt(text: Bytes, a: nat)
    requires a <= |text| && MatchEnd(text, a) == a
    ensures forall b: nat :: !IsURLAt(text, a, b)
  {
    MatchEndSpec(text, a);
  }

  lemma NoURLFrom(text: Bytes, i: nat, e: nat)
    requires i <= e <= |text| + 1
    requires forall a :: i <= a < e ==> MatchEnd(text, a) == a
    ensures forall a: nat, b: nat :: i <= a < e && IsURLAt(text, a, b) ==> false
  {
    forall a: nat, b: nat | i <= a < e && IsURLAt(text, a, b) ensures false {
      NoURLAt(text, a);
    }
  }

  /** Scan finds nothing exactly when no match starts at or after i; otherwise the leftmost, longest one. */
  lemma ScanSpec(text: Bytes, i: nat)
    requires i <= |text|
    ensures Scan(text, i).None? <==> forall a: nat, b: nat :: i <= a && IsURLAt(text, a, b) ==> false
    ensures Scan(text, i).Some? ==>
              var (a, b) := Scan(text, i).value;
              && IsURLAt(text, a, b)
              && (b == |text| || IsSpace(text[b]))
              && (forall a': nat, b': nat :: i <= a' < a && IsURLAt(text, a', b') ==> false)
              && (forall b': nat :: IsURLAt(text, a, b') ==> b' <= b)
  {
    match Scan(text, i)
    case None =>
      NoURLFrom(text, i, |text| + 1);
      forall a: nat, b: nat | i <= a && IsURLAt(text, a, b) ensures false {
      }
    case Some((a, b)) =>
      MatchEndSpec(text, a);
      NoURLFrom(text, i, a);
  }

  /** A match is a scheme followed by non-space bytes, so it holds no space. */
  lemma URLAtShape(text: Bytes, a: nat, b: nat)
    requires IsURLAt(text, a, b)
    ensures HasPrefix(text[a..b], HttpScheme()) || HasPrefix(text[a..b], HttpsScheme())
    ensures NoSpace(text[a..b])
  {
    var r := text[a..b];
    var k := if HasPrefix(r, HttpsScheme()) && a + 8 < b && NoSpace(text[a + 8..b]) then 8 else 7;
    forall j | 0 <= j < |r| ensures !IsSpace(r[j]) {
      if j >= k {
        assert r[j] == text[a + k..b][j - k];
      } else if k == 8 {
        assert r[j] == HttpsScheme()[j];
      } else {
        assert r[j] == HttpScheme()[j];
      }
    }
  }

  /** detectURLInText: the text of the leftmost match, or "" when there is none. */
  function DetectURLInText(text: Bytes): Bytes {
    match Scan(text, 0)
    case None => []
    case Some((a, b)) => text[a..b]
  }

  /**
   * The detected URL is empty exactly when the text holds no match; otherwise
   * it is the substring of the text that starts at the leftmost match, begins
   * with http:// or https://, holds no whitespace and runs to the next
   * whitespace or the end of the text.
   */
  lemma DetectURLInTextSpec(text: Bytes)
    ensures DetectURLInText(text) == [] <==> forall a: nat, b: nat :: IsURLAt(text, a, b) ==> false
    ensures var r := DetectURLInText(text);
            r != [] ==>
              && (HasPrefix(r, HttpScheme()) || HasPrefix(r, HttpsScheme()))
              && NoSpace(r)
              && exists a: nat, b: nat ::
                   && IsURLAt(text, a, b) && r == text[a..b]
                   && (b == |text| || IsSpace(text[b]))
                   && (forall a': nat, b': nat :: a' < a && IsURLAt(text, a', b') ==> false)
                   && (forall b': nat :: IsURLAt(text, a, b') ==> b' <= b)
  {
    ScanSpec(text, 0);
    match Scan(text, 0)
    case None =>
    case Some((a, b)) =>
      URLAtShape(text, a, b);
  }

  /** Go's min on ints: the smaller argument. */
  function Min(a: int, b: int): (m: int)
    ensures m <= a && m <= b
    ensures m == a || m == b
  {
    if a < b then a else b
  }
}

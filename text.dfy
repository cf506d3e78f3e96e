/**
 * The few Python string built-ins the wellness app relies on: `str.isspace`,
 * `str.strip()`, `sep.join(parts)`, `str(int)` and the substring test
 * `t in s`. An f-string is modelled as `"".join` of its literal pieces and
 * interpolated values.
 */
module Text {

  /** Python's `str.isspace()` for one character (the Unicode whitespace set). */
  predicate IsSpace(c: char) {
    || c == ' '
    || ('\t' <= c <= '\r')
    || ('\U{1C}' <= c <= '\U{1F}')
    || c == '\U{85}' || c == '\U{A0}' || c == '\U{1680}'
    || ('\U{2000}' <= c <= '\U{200A}')
    || c == '\U{2028}' || c == '\U{2029}' || c == '\U{202F}' || c == '\U{205F}' || c == '\U{3000}'
  }

  ghost predicate AllSpace(s: string) {
    forall i :: 0 <= i < |s| ==> IsSpace(s[i])
  }

  /** `t in s` for strings: t occurs in s as a contiguous piece. */
  ghost predicate Embeds(s: string, t: string) {
    exists i, j :: 0 <= i <= j <= |s| && s[i..j] == t
  }

  /** The number of whitespace characters `s` starts with. */
  function LeadingSpace(s: string): (n: nat)
    ensures n <= |s|
    ensures forall i :: 0 <= i < n ==> IsSpace(s[i])
    ensures n == |s| || !IsSpace(s[n])
  {
    if |s| > 0 && IsSpace(s[0]) then 1 + LeadingSpace(s[1..]) else 0
  }

  /** The number of whitespace characters `s` ends with. */
  function TrailingSpace(s: string): (n: nat)
    ensures n <= |s|
    ensures forall i :: |s| - n <= i < |s| ==> IsSpace(s[i])
    ensures n == |s| || !IsSpace(s[|s| - n - 1])
  {
    if |s| > 0 && IsSpace(s[|s| - 1]) then 1 + TrailingSpace(s[..|s| - 1]) else 0
  }

  lemma LeadingPartIsSpace(s: string)
    ensures AllSpace(s[..LeadingSpace(s)])
  {
    var n := LeadingSpace(s);
    forall i | 0 <= i < n
      ensures IsSpace(s[..n][i])
    {
      assert s[..n][i] == s[i];
    }
  }

  lemma TrailingPartIsSpace(s: string)
    ensures AllSpace(s[|s| - TrailingSpace(s)..])
  {
    var n := TrailingSpace(s);
    var tail := s[|s| - n..];
    forall i | 0 <= i < |tail|
      ensures IsSpace(tail[i])
    {
      assert tail[i] == s[|s| - n + i];
    }
  }

  /**
   * Python's `s.strip()`, i.e. `s.lstrip().rstrip()`: the result is a piece
   * of `s` that neither starts nor ends with whitespace, and it is empty
   * exactly when `s` is blank. Only whitespace is cut: what lies before
   * and after the result in `s` is all whitespace.
   */
  function Strip(s: string): (r: string)
    ensures r == [] || (!IsSpace(r[0]) && !IsSpace(r[|r| - 1]))
    ensures Embeds(s, r)
    ensures r == [] <==> AllSpace(s)
    ensures var i := LeadingSpace(s);
      i + |r| <= |s| && s[i..i + |r|] == r && AllSpace(s[..i]) && AllSpace(s[i + |r|..])
  {
    var lead := LeadingSpace(s);
    var trail := TrailingSpace(s[lead..]);
    StripCut(s, lead, trail);
    s[lead..|s| - trail]
  }

  /** The facts about the piece left between the leading and the trailing whitespace. */
  lemma StripCut(s: string, lead: nat, trail: nat)
    requires lead == LeadingSpace(s)
    requires trail == TrailingSpace(s[lead..])
    ensures lead <= |s| - trail
    ensures var r := s[lead..|s| - trail];
      && (r == [] || (!IsSpace(r[0]) && !IsSpace(r[|r| - 1])))
      && Embeds(s, r)
      && (r == [] <==> AllSpace(s))
      && s[lead..lead + |r|] == r && AllSpace(s[..lead]) && AllSpace(s[lead + |r|..])
  {
    var left := s[lead..];
    var r := s[lead..|s| - trail];
    assert r == left[..|left| - trail];
    assert s[lead..lead + |r|] == r;
    LeadingPartIsSpace(s);
    TrailingPartIsSpace(left);
    assert s[lead + |r|..] == left[|left| - trail..];
    if r != [] {
      assert r[0] == s[lead] && r[|r| - 1] == left[|left| - trail - 1];
    }
    StripCutBlank(s, lead, trail);
  }

  /** The cut leaves nothing exactly when `s` is all whitespace. */
  lemma StripCutBlank(s: string, lead: nat, trail: nat)
    requires lead == LeadingSpace(s)
    requires trail == TrailingSpace(s[lead..])
    ensures s[lead..|s| - trail] == [] <==> AllSpace(s)
  {
    var left := s[lead..];
    if lead < |s| {
      assert !IsSpace(s[lead]);
      assert left[0] == s[lead];
      assert trail < |left|;
    } else {
      forall i | 0 <= i < |s|
        ensures IsSpace(s[i])
      {
      }
    }
  }

  /** Python's `sep.join(parts)`. */
  function Join(sep: string, parts: seq<string>): string {
    if |parts| == 0 then ""
    else if |parts| == 1 then parts[0]
    else parts[0] + sep + Join(sep, parts[1..])
  }

  /** Every joined part occurs in the joined string. */
  lemma {:induction false} JoinEmbedsEach(sep: string, parts: seq<string>, k: nat)
    requires k < |parts|
    ensures Embeds(Join(sep, parts), parts[k])
  {
    var s := Join(sep, parts);
    if |parts| == 1 {
      assert s[0..|s|] == parts[0];
    } else if k == 0 {
      assert s[0..|parts[0]|] == parts[0];
    } else {
      JoinEmbedsEach(sep, parts[1..], k - 1);
      var rest := Join(sep, parts[1..]);
      var i, j :| 0 <= i <= j <= |rest| && rest[i..j] == parts[1..][k - 1];
      var off := |parts[0] + sep|;
      assert s == parts[0] + sep + rest;
      assert s[off + i..off + j] == rest[i..j];
    }
  }

  /** Joining four parts puts the separator exactly between neighbours. */
  lemma JoinFour(sep: string, a: string, b: string, c: string, d: string)
    ensures Join(sep, [a, b, c, d]) == a + sep + b + sep + c + sep + d
  {
    assert [a, b, c, d][1..] == [b, c, d];
    assert [b, c, d][1..] == [c, d];
    assert [c, d][1..] == [d];
    assert Join(sep, [c, d]) == c + sep + d;
    assert Join(sep, [b, c, d]) == b + sep + (c + sep + d);
  }

  /** Four "label value" parts joined, then a tail, as one flat concatenation. */
  lemma JoinFourLabelled(sep: string, la: string, a: string, lb: string, b: string,
                         lc: string, c: string, ld: string, d: string, tail: string)
    ensures Join(sep, [la + a, lb + b, lc + c, ld + d]) + tail
            == la + a + sep + lb + b + sep + lc + c + sep + ld + d + tail
  {
    JoinFour(sep, la + a, lb + b, lc + c, ld + d);
  }

  function DigitChar(d: nat): (c: char)
    requires d < 10
    ensures '0' <= c <= '9' && c as int - '0' as int == d
  {
    "0123456789"[d]
  }

  predicate IsDigit(c: char) {
    '0' <= c <= '9'
  }

  /** The number a string of decimal digits denotes, read most significant digit first. */
  function DigitsValue(s: string): nat
    requires forall k :: 0 <= k < |s| ==> IsDigit(s[k])
  {
    if s == [] then 0
    else
      assert IsDigit(s[|s| - 1]);
      10 * DigitsValue(s[..|s| - 1]) + (s[|s| - 1] as int - '0' as int)
  }

  /**
   * Python's `str(n)` for a natural number: its decimal digits, with no
   * leading zero except for 0 itself, denoting `n`.
   */
  function NatToString(n: nat): (r: string)
    ensures |r| >= 1
    ensures forall k :: 0 <= k < |r| ==> IsDigit(r[k])
    ensures r[0] == '0' ==> n == 0 && r == "0"
    ensures DigitsValue(r) == n
  {
    if n < 10 then [DigitChar(n)]
    else
      var prefix := NatToString(n / 10);
      var r := prefix + [DigitChar(n % 10)];
      assert r[..|r| - 1] == prefix;
      r
  }

  /** Python's `str(i)` for an integer: a minus sign for a negative number, then the digits of its magnitude. */
  function IntToString(i: int): (r: string)
    ensures i < 0 ==> |r| >= 2 && r[0] == '-' && r[1..] == NatToString(-i) && DigitsValue(r[1..]) == -i
    ensures i >= 0 ==> (forall k :: 0 <= k < |r| ==> IsDigit(r[k])) && DigitsValue(r) == i
    ensures i >= 0 ==> |r| >= 1 && (r[0] == '0' ==> r == "0")
  {
    if i < 0 then "-" + NatToString(-i) else NatToString(i)
  }
}

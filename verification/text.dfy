/**
 * String helpers standing in for the Python `str` methods the concierge uses:
 * `isspace`/`strip`, `isupper`/`lower`, `count`, the substring test `k in s`,
 * `" ".join(...)` and the decimal rendering of an integer in an f-string.
 * Character classes are those of ASCII; non-ASCII letters and non-ASCII
 * white space are treated as ordinary characters.
 */
module Text {

  /** Python's `str.isspace` on ASCII: tab, line feed, vertical tab, form feed,
      carriage return, the four separators 0x1C-0x1F and the space. */
  predicate IsSpace(c: char) {
    ('\t' <= c <= '\r') || ('\U{1C}' <= c <= ' ')
  }

  /** Python's `str.isupper` on a single ASCII character. */
  predicate IsUpper(c: char) {
    'A' <= c <= 'Z'
  }

  function LowerChar(c: char): char {
    if IsUpper(c) then (c as int + 32) as char else c
  }

  /** `str.lower()` on ASCII letters. */
  function Lower(s: string): string {
    seq(|s|, i requires 0 <= i < |s| => LowerChar(s[i]))
  }

  lemma LowerAppend(a: string, b: string)
    ensures Lower(a + b) == Lower(a) + Lower(b)
  {
    assert forall i :: 0 <= i < |a + b| ==> Lower(a + b)[i] == (Lower(a) + Lower(b))[i];
  }

  predicate IsBlank(s: string) {
    forall i :: 0 <= i < |s| ==> IsSpace(s[i])
  }

  /** `str.lstrip()`: the longest suffix that does not start with white space. */
  function TrimStart(s: string): (r: string)
    ensures |r| <= |s| && r == s[|s| - |r|..]
    ensures forall i :: 0 <= i < |s| - |r| ==> IsSpace(s[i])
    ensures r == [] || !IsSpace(r[0])
  {
    if |s| > 0 && IsSpace(s[0]) then TrimStart(s[1..]) else s
  }

  /** `str.rstrip()`: the longest prefix that does not end with white space. */
  function TrimEnd(s: string): (r: string)
    ensures |r| <= |s| && r == s[..|r|]
    ensures forall i :: |r| <= i < |s| ==> IsSpace(s[i])
    ensures r == [] || !IsSpace(r[|r| - 1])
  {
    if |s| > 0 && IsSpace(s[|s| - 1]) then TrimEnd(s[..|s| - 1]) else s
  }

  /** `str.strip()`. */
  function Strip(s: string): string {
    TrimEnd(TrimStart(s))
  }

  /** `lstrip` cuts off a blank prefix. */
  lemma TrimStartSplit(s: string)
    ensures IsBlank(s[..|s| - |TrimStart(s)|]) && s == s[..|s| - |TrimStart(s)|] + TrimStart(s)
  {
  }

  /** `rstrip` cuts off a blank suffix. */
  lemma TrimEndSplit(s: string)
    ensures IsBlank(s[|TrimEnd(s)|..]) && s == TrimEnd(s) + s[|TrimEnd(s)|..]
  {
    var back := s[|TrimEnd(s)|..];
    forall i | 0 <= i < |back|
      ensures IsSpace(back[i])
    {
      assert back[i] == s[|TrimEnd(s)| + i];
    }
  }

  /** `s.strip()` is `s` with white space cut off on either side. */
  lemma StripSplit(s: string) returns (front: string, back: string)
    ensures IsBlank(front) && IsBlank(back) && s == front + Strip(s) + back
  {
    var t := TrimStart(s);
    TrimStartSplit(s);
    TrimEndSplit(t);
    front, back := s[..|s| - |t|], t[|TrimEnd(t)|..];
    ConcatAssoc(front, TrimEnd(t), back);
  }

  /** Concatenation is associative. */
  lemma ConcatAssoc(a: string, b: string, c: string)
    ensures a + (b + c) == a + b + c
  {
  }

  /** `s.strip()` neither starts nor ends with white space. */
  lemma StripEdges(s: string)
    ensures Strip(s) == [] || (!IsSpace(Strip(s)[0]) && !IsSpace(Strip(s)[|Strip(s)| - 1]))
  {
    var t := TrimStart(s);
    var r := TrimEnd(t);
    if r != [] {
      assert r[0] == t[0];
    }
  }

  /** `s.strip() == ""` exactly when `s` consists of white space only. */
  lemma StripEmptyIff(s: string)
    ensures Strip(s) == [] <==> IsBlank(s)
  {
    var t := TrimStart(s);
    if t == [] {
      assert IsBlank(s);
    } else {
      assert !IsSpace(t[0]) && t[0] == s[|s| - |t|];
      assert !IsBlank(s);
    }
  }

  /** An input that begins or ends with white space is changed by `strip()`. */
  lemma StripChangesPadded(s: string)
    requires s != [] && (IsSpace(s[0]) || IsSpace(s[|s| - 1]))
    ensures Strip(s) != s
  {
    var front, back := StripSplit(s);
    StripEdges(s);
  }

  /** `str.strip()` is idempotent. */
  lemma {:induction false} StripIdempotent(s: string)
    ensures Strip(Strip(s)) == Strip(s)
  {
    StripEdges(s);
    var r := Strip(s);
    assert TrimStart(r) == r;
    assert TrimEnd(r) == r;
  }

  /** `s.count(c)` for a one-character needle. */
  function CountChar(s: string, c: char): nat {
    if s == [] then 0 else (if s[0] == c then 1 else 0) + CountChar(s[1..], c)
  }

  /** Counting distributes over concatenation. */
  lemma {:induction false} CountCharAppend(a: string, b: string, c: char)
    ensures CountChar(a + b, c) == CountChar(a, c) + CountChar(b, c)
  {
    if a != [] {
      assert (a + b)[1..] == a[1..] + b;
      CountCharAppend(a[1..], b, c);
    } else {
      assert a + b == b;
    }
  }

  /** A character that is counted at all occurs somewhere in the string. */
  lemma {:induction false} CountCharOccurs(s: string, c: char)
    requires CountChar(s, c) > 0
    ensures exists i :: 0 <= i < |s| && s[i] == c
  {
    if s[0] != c {
      CountCharOccurs(s[1..], c);
      var i :| 0 <= i < |s[1..]| && s[1..][i] == c;
      assert s[i + 1] == c;
    }
  }

  /** `sum(1 for c in s if c.isupper())`. */
  function CountUpper(s: string): nat {
    if s == [] then 0 else (if IsUpper(s[0]) then 1 else 0) + CountUpper(s[1..])
  }

  /** In a string of capitals every character is counted. */
  lemma {:induction false} CountUpperAll(s: string)
    requires forall i :: 0 <= i < |s| ==> IsUpper(s[i])
    ensures CountUpper(s) == |s|
  {
    if s != [] {
      CountUpperAll(s[1..]);
    }
  }

  /** A string with an upper-case count above zero holds a capital. */
  lemma {:induction false} UpperOccurs(s: string)
    requires CountUpper(s) > 0
    ensures exists i :: 0 <= i < |s| && IsUpper(s[i])
  {
    if !IsUpper(s[0]) {
      UpperOccurs(s[1..]);
      var i :| 0 <= i < |s[1..]| && IsUpper(s[1..][i]);
      assert IsUpper(s[i + 1]);
    }
  }

  /** `k` occurs in `s` starting at index `i`. */
  predicate OccursAt(s: string, k: string, i: int) {
    0 <= i && i + |k| <= |s| && s[i..i + |k|] == k
  }

  /** Python's substring test `k in s`, as a left-to-right search. */
  function Contains(s: string, k: string): bool {
    |k| <= |s| && (s[..|k|] == k || Contains(s[1..], k))
  }

  /** The search finds `k` exactly when `k` occurs at some index of `s`. */
  lemma {:induction false} ContainsIff(s: string, k: string)
    ensures Contains(s, k) <==> exists i :: OccursAt(s, k, i)
  {
    if |k| <= |s| {
      if s[..|k|] == k {
        assert OccursAt(s, k, 0);
      } else {
        ContainsIff(s[1..], k);
        if Contains(s[1..], k) {
          var i :| OccursAt(s[1..], k, i);
          assert s[i + 1..i + 1 + |k|] == s[1..][i..i + |k|];
          assert OccursAt(s, k, i + 1);
        } else {
          forall i | 1 <= i && OccursAt(s, k, i)
            ensures OccursAt(s[1..], k, i - 1)
          {
            assert s[1..][i - 1..i - 1 + |k|] == s[i..i + |k|];
          }
        }
      }
    }
  }

  /** Whatever surrounds it, a string contains each of its own infixes. */
  lemma ContainsInfix(a: string, k: string, b: string)
    ensures Contains(a + k + b, k)
  {
    assert (a + k + b)[|a|..|a| + |k|] == k;
    assert OccursAt(a + k + b, k, |a|);
    ContainsIff(a + k + b, k);
  }

  /** `" ".join(parts)`. */
  function JoinSpaces(parts: seq<string>): string {
    if |parts| == 0 then ""
    else if |parts| == 1 then parts[0]
    else parts[0] + " " + JoinSpaces(parts[1..])
  }

  /** Three parts are joined with a single space between each pair. */
  lemma JoinSpacesThree(a: string, b: string, c: string)
    ensures JoinSpaces([a, b, c]) == a + " " + b + " " + c
  {
    assert [a, b, c][1..] == [b, c] && [b, c][1..] == [c];
    assert JoinSpaces([b, c]) == b + " " + JoinSpaces([c]) == b + " " + c;
  }

  /** A string framed by the same prefix and suffix determines what is
      between them. */
  lemma AffixCancel(pre: string, a: string, b: string, post: string)
    requires pre + a + post == pre + b + post
    ensures a == b
  {
    var s := pre + a + post;
    assert a == s[|pre|..|pre| + |a|];
    assert b == (pre + b + post)[|pre|..|pre| + |b|];
  }

  function DigitChar(d: nat): (c: char)
    requires d < 10
    ensures '0' <= c <= '9'
  {
    ('0' as int + d) as char
  }

  /** The decimal rendering of a natural number, as `f"{n}"` prints it. */
  function Decimal(n: nat): (r: string)
    ensures 1 <= |r| && (n < 10 <==> |r| == 1)
    ensures forall i :: 0 <= i < |r| ==> '0' <= r[i] <= '9'
    ensures r[|r| - 1] == DigitChar(n % 10)
  {
    if n < 10 then [DigitChar(n)] else Decimal(n / 10) + [DigitChar(n % 10)]
  }

  /** Different numbers are rendered differently. */
  lemma {:induction false} DecimalInjective(a: nat, b: nat)
    ensures Decimal(a) == Decimal(b) <==> a == b
  {
    if Decimal(a) == Decimal(b) {
      var da, db := Decimal(a), Decimal(b);
      assert DigitChar(a % 10) == DigitChar(b % 10);
      assert a % 10 == b % 10;
      if a >= 10 {
        assert b >= 10;
        assert da[..|da| - 1] == Decimal(a / 10);
        assert db[..|db| - 1] == Decimal(b / 10);
        DecimalInjective(a / 10, b / 10);
        assert a / 10 == b / 10;
        assert a == 10 * (a / 10) + a % 10;
        assert b == 10 * (b / 10) + b % 10;
      }
    }
  }
}

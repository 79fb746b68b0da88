/** Text operations the sources rely on: decimal rendering of a count
    (`String(i)`, Python's `str`), `padStart`, ASCII lower-casing, substring
    search (`includes`) and `str.join`. */
module Strings {

  predicate IsDigit(c: char) { '0' <= c <= '9' }

  predicate AllDigits(s: string) { forall i :: 0 <= i < |s| ==> IsDigit(s[i]) }

  function DigitChar(d: nat): (c: char)
    requires d < 10
    ensures IsDigit(c)
  {
    (48 + d) as char
  }

  function DigitValue(c: char): (d: nat)
    requires IsDigit(c)
    ensures d < 10
  {
    c as int - 48
  }

  /** The decimal numeral of `n`, without leading zeros ("0" for zero). */
  function Digits(n: nat): (s: string)
    ensures |s| >= 1 && AllDigits(s)
    ensures s[0] != '0' || n == 0
  {
    if n < 10 then [DigitChar(n)] else Digits(n / 10) + [DigitChar(n % 10)]
  }

  /** The number a string of decimal digits denotes; leading zeros contribute nothing. */
  function ValueOf(s: string): nat
    requires AllDigits(s)
  {
    if s == [] then 0 else ValueOf(s[..|s| - 1]) * 10 + DigitValue(s[|s| - 1])
  }

  /** Reading back a rendered numeral gives the number. */
  lemma {:induction false} DigitsRoundTrip(n: nat)
    ensures ValueOf(Digits(n)) == n
  {
    if n >= 10 {
      var s := Digits(n);
      assert s[..|s| - 1] == Digits(n / 10);
      DigitsRoundTrip(n / 10);
    }
  }

  function Zeros(k: nat): (z: string)
    ensures |z| == k && AllDigits(z)
    ensures forall i :: 0 <= i < k ==> z[i] == '0'
  {
    seq(k, _ => '0')
  }

  /** Leading zeros do not change the value of a numeral. */
  lemma {:induction false} LeadingZeros(k: nat, s: string)
    requires AllDigits(s)
    ensures AllDigits(Zeros(k) + s)
    ensures ValueOf(Zeros(k) + s) == ValueOf(s)
    decreases |s| + k
  {
    var t := Zeros(k) + s;
    if s == [] {
      assert t == Zeros(k);
      if k > 0 {
        assert t[..|t| - 1] == Zeros(k - 1) + [];
        LeadingZeros(k - 1, []);
      }
    } else {
      assert t[..|t| - 1] == Zeros(k) + s[..|s| - 1];
      LeadingZeros(k, s[..|s| - 1]);
    }
  }

  function Pow10(k: nat): (p: nat)
    ensures p >= 1
  {
    if k == 0 then 1 else 10 * Pow10(k - 1)
  }

  /** A number below 10^k is written with at most k digits. */
  lemma {:induction false} DigitsLength(n: nat, k: nat)
    requires 1 <= k && n < Pow10(k)
    ensures |Digits(n)| <= k
  {
    if n >= 10 {
      assert k >= 2;
      DigitsLength(n / 10, k - 1);
    }
  }

  /** JavaScript's `s.padStart(width, c)` for a one-character pad string:
      `s` unchanged when it is already `width` long, otherwise `c` repeated in front
      until the length is `width`. */
  function PadStart(s: string, width: nat, c: char): (r: string)
    ensures |r| == if |s| >= width then |s| else width
    ensures r[|r| - |s|..] == s
    ensures forall i :: 0 <= i < |r| - |s| ==> r[i] == c
  {
    if |s| >= width then s else seq(width - |s|, _ => c) + s
  }

  /** ASCII lower-casing of one character; every other character is kept. */
  function LowerChar(c: char): char
  {
    if 'A' <= c <= 'Z' then (c as int + 32) as char else c
  }

  function ToLower(s: string): (r: string)
    ensures |r| == |s|
  {
    seq(|s|, i requires 0 <= i < |s| => LowerChar(s[i]))
  }

  predicate StartsWith(s: string, prefix: string)
  {
    |prefix| <= |s| && s[..|prefix|] == prefix
  }

  /** JavaScript's `s.includes(t)`: `t` occurs in `s` as a contiguous block. */
  predicate Contains(s: string, t: string)
    decreases |s|
  {
    if StartsWith(s, t) then true
    else if s == [] then false
    else Contains(s[1..], t)
  }

  /** `t` occurs in `s` starting at position `k`. */
  predicate OccursAt(s: string, t: string, k: int)
  {
    0 <= k <= |s| - |t| && s[k..k + |t|] == t
  }

  /** `Contains` agrees with the positional definition of a substring. */
  lemma {:induction false} ContainsAt(s: string, t: string)
    ensures Contains(s, t) <==> exists k :: OccursAt(s, t, k)
    decreases |s|
  {
    if StartsWith(s, t) {
      assert OccursAt(s, t, 0);
    } else if s != [] {
      ContainsAt(s[1..], t);
      if Contains(s[1..], t) {
        var k :| OccursAt(s[1..], t, k);
        assert s[1..][k..k + |t|] == s[k + 1..k + 1 + |t|];
        assert OccursAt(s, t, k + 1);
      } else if exists k :: OccursAt(s, t, k) {
        var k :| OccursAt(s, t, k);
        assert k != 0;
        assert s[1..][k - 1..k - 1 + |t|] == s[k..k + |t|];
        assert OccursAt(s[1..], t, k - 1);
      }
    }
  }

  /** The empty search string occurs everywhere. */
  lemma EmptyContained(s: string)
    ensures Contains(s, "")
  {
    assert StartsWith(s, "");
  }

  /** Python's `s.rfind(c)`: the last position of `c` in `s`, or -1 when there is none. */
  function RFind(s: string, c: char): (i: int)
    ensures -1 <= i < |s|
    ensures i >= 0 ==> s[i] == c
    ensures forall j :: i < j < |s| ==> s[j] != c
  {
    if s == [] then -1
    else if s[|s| - 1] == c then |s| - 1
    else RFind(s[..|s| - 1], c)
  }

  /** The pieces written one after another, as an f-string assembles its text. */
  function Concat(pieces: seq<string>): string
  {
    if pieces == [] then "" else pieces[0] + Concat(pieces[1..])
  }

  lemma {:induction false} ConcatAppend(a: seq<string>, b: seq<string>)
    ensures Concat(a + b) == Concat(a) + Concat(b)
  {
    if a == [] {
      assert a + b == b;
    } else {
      assert (a + b)[1..] == a[1..] + b;
      ConcatAppend(a[1..], b);
    }
  }

  /** Piece `k` occurs in the text right after the pieces before it. */
  lemma ConcatAt(pieces: seq<string>, k: nat)
    requires k < |pieces|
    ensures OccursAt(Concat(pieces), pieces[k], |Concat(pieces[..k])|)
  {
    assert pieces == pieces[..k] + ([pieces[k]] + pieces[k + 1..]);
    ConcatAppend(pieces[..k], [pieces[k]] + pieces[k + 1..]);
    var before, rest := Concat(pieces[..k]), Concat(pieces[k + 1..]);
    assert Concat([pieces[k]] + pieces[k + 1..]) == pieces[k] + rest;
    assert Concat(pieces)[|before|..|before| + |pieces[k]|] == pieces[k];
  }

  /** The text before piece `j` holds all of piece `k` for every earlier `k`. */
  lemma ConcatPrefixGrows(pieces: seq<string>, k: nat, j: nat)
    requires k < j <= |pieces|
    ensures |Concat(pieces[..k])| + |pieces[k]| <= |Concat(pieces[..j])|
  {
    assert pieces[..j] == pieces[..k] + ([pieces[k]] + pieces[k + 1..j]);
    ConcatAppend(pieces[..k], [pieces[k]] + pieces[k + 1..j]);
    assert Concat([pieces[k]] + pieces[k + 1..j]) == pieces[k] + Concat(pieces[k + 1..j]);
  }

  /** Pieces 1, 3, 5, 7 and 9 of a concatenation sit in it at strictly increasing
      positions when pieces 1, 3, 5 and 7 are non-empty. */
  lemma OddPiecesInOrder(pieces: seq<string>)
    requires |pieces| >= 10
    requires pieces[1] != [] && pieces[3] != [] && pieces[5] != [] && pieces[7] != []
    ensures OccursAt(Concat(pieces), pieces[1], |Concat(pieces[..1])|)
    ensures OccursAt(Concat(pieces), pieces[3], |Concat(pieces[..3])|)
    ensures OccursAt(Concat(pieces), pieces[5], |Concat(pieces[..5])|)
    ensures OccursAt(Concat(pieces), pieces[7], |Concat(pieces[..7])|)
    ensures OccursAt(Concat(pieces), pieces[9], |Concat(pieces[..9])|)
    ensures |Concat(pieces[..1])| < |Concat(pieces[..3])| < |Concat(pieces[..5])|
              < |Concat(pieces[..7])| < |Concat(pieces[..9])|
  {
    ConcatAt(pieces, 1);
    ConcatAt(pieces, 3);
    ConcatAt(pieces, 5);
    ConcatAt(pieces, 7);
    ConcatAt(pieces, 9);
    ConcatPrefixGrows(pieces, 1, 3);
    ConcatPrefixGrows(pieces, 3, 5);
    ConcatPrefixGrows(pieces, 5, 7);
    ConcatPrefixGrows(pieces, 7, 9);
  }

  /** Python's `sep.join(parts)`. */
  function Join(parts: seq<string>, sep: string): string
  {
    if |parts| == 0 then ""
    else if |parts| == 1 then parts[0]
    else parts[0] + sep + Join(parts[1..], sep)
  }

  /** Joining four parts puts the separator between neighbours and nowhere else. */
  lemma JoinFour(a: string, b: string, c: string, d: string, sep: string)
    ensures Join([a, b, c, d], sep) == a + sep + b + sep + c + sep + d
  {
    assert [c, d][1..] == [d];
    assert Join([c, d], sep) == c + sep + d;
    assert [b, c, d][1..] == [c, d];
    assert Join([b, c, d], sep) == b + sep + (c + sep + d);
    assert [a, b, c, d][1..] == [b, c, d];
    assert Join([a, b, c, d], sep) == a + sep + (b + sep + (c + sep + d));
  }
}

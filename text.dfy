/** The conventional optional value, standing for JavaScript's `undefined`/`null`. */
module Wrappers {
  datatype Option<+T> = None | Some(value: T)

  /** JavaScript truthiness of an optional string: present and not empty. */
  predicate Truthy(s: Option<string>) {
    s.Some? && s.value != ""
  }

  /** No key occurs twice. */
  predicate Distinct(keys: seq<string>) {
    forall i, j :: 0 <= i < j < |keys| ==> keys[i] != keys[j]
  }
}

/**
 * String helpers shared by every component: the JavaScript `toLowerCase`,
 * `indexOf`, `includes` and `join` that the source applies to messages.
 * A string is a sequence of characters; lower-casing is modelled on ASCII only.
 */
module Text {

  /** ASCII stand-in for JavaScript's per-character lower-casing. */
  function LowerChar(c: char): char {
    if 'A' <= c <= 'Z' then (c as int + 32) as char else c
  }

  /** `s.toLowerCase()`, restricted to ASCII letters. */
  function Lower(s: string): string {
    seq(|s|, i requires 0 <= i < |s| => LowerChar(s[i]))
  }

  /** A string without ASCII capitals, such as every Japanese phrase, is its own lower case. */
  lemma LowerWithoutCapitals(s: string)
    requires forall i :: 0 <= i < |s| ==> !('A' <= s[i] <= 'Z')
    ensures Lower(s) == s
  {
  }

  /** Lower-casing twice is lower-casing once. */
  lemma LowerIdempotent(s: string)
    ensures Lower(Lower(s)) == Lower(s)
  {
    LowerWithoutCapitals(Lower(s));
  }

  /** `p` occurs in `s` starting at index `i`. */
  predicate OccursAt(s: string, p: string, i: int) {
    0 <= i && i + |p| <= |s| && s[i..i + |p|] == p
  }

  /** Characters `k..` of `p` agree with `s` from index `i + k` on. */
  predicate MatchFrom(s: string, p: string, i: nat, k: nat)
    decreases |p| - k
  {
    k >= |p| || (i + k < |s| && s[i + k] == p[k] && MatchFrom(s, p, i, k + 1))
  }

  lemma {:induction false} MatchFromOccurs(s: string, p: string, i: nat, k: nat)
    requires k <= |p| && i + |p| <= |s|
    ensures MatchFrom(s, p, i, k) <==> forall j :: k <= j < |p| ==> s[i + j] == p[j]
    decreases |p| - k
  {
    if k < |p| {
      MatchFromOccurs(s, p, i, k + 1);
    }
  }

  lemma MatchIsOccurrence(s: string, p: string, i: nat)
    requires i + |p| <= |s|
    ensures MatchFrom(s, p, i, 0) <==> OccursAt(s, p, i)
  {
    MatchFromOccurs(s, p, i, 0);
    assert (forall j :: 0 <= j < |p| ==> s[i + j] == p[j]) <==> s[i..i + |p|] == p by {
      if s[i..i + |p|] == p {
        forall j | 0 <= j < |p| ensures s[i + j] == p[j] {
          assert s[i..i + |p|][j] == s[i + j];
        }
      }
    }
  }

  /**
   * `s.indexOf(p, from)`: the first index at or after `from` where `p`
   * occurs in `s`, or -1 when there is none.
   */
  function IndexFrom(s: string, p: string, from: nat): (r: int)
    ensures r == -1 || (from <= r && OccursAt(s, p, r))
    ensures r == -1 ==> forall j :: from <= j ==> !OccursAt(s, p, j)
    ensures r >= 0 ==> forall j :: from <= j < r ==> !OccursAt(s, p, j)
    decreases |s| - from
  {
    if from + |p| > |s| then -1
    else
      MatchIsOccurrence(s, p, from);
      if MatchFrom(s, p, from, 0) then from
      else IndexFrom(s, p, from + 1)
  }

  /** `s.indexOf(p)`. */
  function IndexOf(s: string, p: string): int {
    IndexFrom(s, p, 0)
  }

  /** `s.length` in JavaScript: UTF-16 code units, two for a character above U+FFFF. */
  function Utf16Length(s: string): (n: nat)
    ensures |s| <= n <= 2 * |s|
    decreases |s|
  {
    if s == [] then 0
    else Utf16Length(s[..|s| - 1]) + (if s[|s| - 1] as int > 0xFFFF then 2 else 1)
  }

  /** Without characters above U+FFFF, code units and characters agree. */
  lemma {:induction false} Utf16LengthBmp(s: string)
    requires forall i :: 0 <= i < |s| ==> s[i] as int <= 0xFFFF
    ensures Utf16Length(s) == |s|
    decreases |s|
  {
    if s != [] {
      assert forall i :: 0 <= i < |s| - 1 ==> s[..|s| - 1][i] == s[i];
      Utf16LengthBmp(s[..|s| - 1]);
    }
  }

  /** When every character is above U+FFFF, each takes two code units. */
  lemma {:induction false} Utf16LengthAstral(s: string)
    requires forall i :: 0 <= i < |s| ==> s[i] as int > 0xFFFF
    ensures Utf16Length(s) == 2 * |s|
    decreases |s|
  {
    if s != [] {
      assert forall i :: 0 <= i < |s| - 1 ==> s[..|s| - 1][i] == s[i];
      Utf16LengthAstral(s[..|s| - 1]);
    }
  }

  /**
   * `s.indexOf(p)` counted in UTF-16 code units. Both strings are well-formed,
   * so an occurrence in code units starts at a character boundary, and the
   * first one is the first occurrence in characters.
   */
  function Utf16IndexOf(s: string, p: string): (r: int)
    ensures r == -1 <==> IndexOf(s, p) == -1
    ensures r == 0 <==> IndexOf(s, p) == 0
    ensures r >= IndexOf(s, p)
  {
    var i := IndexOf(s, p);
    if i < 0 then -1 else Utf16Length(s[..i])
  }

  /** `s.includes(p)`. */
  predicate Contains(s: string, p: string) {
    IndexOf(s, p) >= 0
  }

  lemma ContainsIff(s: string, p: string)
    ensures Contains(s, p) <==> exists i :: OccursAt(s, p, i)
  {
  }

  /** An occurrence anywhere makes `includes` true. */
  lemma OccurrenceContained(s: string, p: string, i: int)
    requires OccursAt(s, p, i)
    ensures Contains(s, p)
  {
  }

  /** A phrase holding a character that `s` lacks does not occur in `s`. */
  lemma AbsentCharNotContained(s: string, p: string, j: nat)
    requires j < |p| && forall i :: 0 <= i < |s| ==> s[i] != p[j]
    ensures !Contains(s, p)
  {
    ContainsIff(s, p);
  }

  /** `phrases.some(p => s.includes(p.toLowerCase()))`. */
  predicate ContainsSome(s: string, phrases: seq<string>) {
    exists k :: 0 <= k < |phrases| && Contains(s, Lower(phrases[k]))
  }

  /** `s.includes(w1) || s.includes(w2) || …` over literal keywords. */
  predicate MentionsAny(s: string, words: seq<string>) {
    exists k :: 0 <= k < |words| && Contains(s, words[k])
  }

  /** `parts.join(sep)`. */
  function Join(parts: seq<string>, sep: string): string
    decreases |parts|
  {
    if parts == [] then ""
    else if |parts| == 1 then parts[0]
    else Join(parts[..|parts| - 1], sep) + sep + parts[|parts| - 1]
  }

  /** Joining one more part adds exactly the separator and that part at the end. */
  lemma JoinSnoc(parts: seq<string>, sep: string, last: string)
    requires parts != []
    ensures Join(parts + [last], sep) == Join(parts, sep) + sep + last
  {
    assert (parts + [last])[..|parts|] == parts;
  }
}

/** Decimal rendering of naturals (`n.toString()`), `padStart` and the inverse parser. */
module Decimal {

  predicate IsDigit(c: char) {
    '0' <= c <= '9'
  }

  predicate AllDigits(s: string) {
    forall i :: 0 <= i < |s| ==> IsDigit(s[i])
  }

  function DigitChar(d: nat): (c: char)
    requires d < 10
    ensures IsDigit(c)
  {
    ('0' as int + d) as char
  }

  function DigitValue(c: char): nat
    requires IsDigit(c)
  {
    c as int - '0' as int
  }

  /** `n.toString()` for a natural number: no leading zeros, at least one digit. */
  function NatToString(n: nat): (r: string)
    ensures |r| >= 1 && AllDigits(r)
    decreases n
  {
    if n < 10 then [DigitChar(n)] else NatToString(n / 10) + [DigitChar(n % 10)]
  }

  /** The value of a string of decimal digits; "" reads as 0. */
  function ParseDigits(s: string): nat
    requires AllDigits(s)
    decreases |s|
  {
    if s == [] then 0 else ParseDigits(s[..|s| - 1]) * 10 + DigitValue(s[|s| - 1])
  }

  /** Reading back what `NatToString` printed gives the number. */
  lemma {:induction false} ParseNatToString(n: nat)
    ensures ParseDigits(NatToString(n)) == n
    decreases n
  {
    if n >= 10 {
      var s := NatToString(n / 10) + [DigitChar(n % 10)];
      assert s[..|s| - 1] == NatToString(n / 10);
      ParseNatToString(n / 10);
    }
  }

  /** One digit below ten, two below a hundred. */
  lemma {:induction false} NatToStringLength(n: nat)
    ensures n < 10 ==> |NatToString(n)| == 1
    ensures 10 <= n < 100 ==> |NatToString(n)| == 2
    ensures n >= 10 ==> |NatToString(n)| >= 2
  {
    if n >= 10 {
      NatToStringLength(n / 10);
    }
  }

  /** `n` copies of `c`. */
  function Repeat(c: char, n: nat): (r: string)
    ensures |r| == n && forall i :: 0 <= i < n ==> r[i] == c
  {
    seq(n, _ => c)
  }

  /** `s.padStart(width, c)`. */
  function PadStart(s: string, width: nat, c: char): (r: string)
    ensures |r| == if |s| >= width then |s| else width
    ensures r[|r| - |s|..] == s
  {
    if |s| >= width then s else Repeat(c, width - |s|) + s
  }

  /** Leading zeros do not change the value of a digit string. */
  lemma {:induction false} ParseLeadingZeros(z: nat, s: string)
    requires AllDigits(s)
    ensures AllDigits(Repeat('0', z) + s)
    ensures ParseDigits(Repeat('0', z) + s) == ParseDigits(s)
    decreases |s|
  {
    var t := Repeat('0', z) + s;
    if s == [] {
      assert t == Repeat('0', z);
      ZerosParseToZero(z);
    } else {
      assert t[..|t| - 1] == Repeat('0', z) + s[..|s| - 1];
      ParseLeadingZeros(z, s[..|s| - 1]);
    }
  }

  lemma {:induction false} ZerosParseToZero(z: nat)
    ensures AllDigits(Repeat('0', z))
    ensures ParseDigits(Repeat('0', z)) == 0
  {
    if z > 0 {
      assert Repeat('0', z)[..z - 1] == Repeat('0', z - 1);
      ZerosParseToZero(z - 1);
    }
  }

  /** Zero-padding a printed number keeps its value readable. */
  lemma PaddedNumberParses(n: nat, width: nat)
    ensures AllDigits(PadStart(NatToString(n), width, '0'))
    ensures ParseDigits(PadStart(NatToString(n), width, '0')) == n
  {
    var s := NatToString(n);
    ParseNatToString(n);
    if |s| < width {
      ParseLeadingZeros(width - |s|, s);
    }
  }
}

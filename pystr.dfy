/**
 * The few Python string built-ins the interview bot relies on:
 * `str.split()` with no argument, `str.isdigit()`, `int(word)` on a digit
 * word, `str(n)` of a natural number and `sep.join(items)`.
 */
module PyStr {

  /** The characters for which Python's `str.isspace()` holds; `str.split()` breaks on runs of them. */
  predicate IsSpace(c: char) {
    || c == ' '
    || '\t' <= c <= '\r'
    || '\U{1c}' <= c <= '\U{1f}'
    || c == '\U{85}' || c == '\U{a0}' || c == '\U{1680}'
    || '\U{2000}' <= c <= '\U{200a}'
    || c == '\U{2028}' || c == '\U{2029}' || c == '\U{202f}' || c == '\U{205f}' || c == '\U{3000}'
  }

  predicate NoSpace(w: string) {
    forall k :: 0 <= k < |w| ==> !IsSpace(w[k])
  }

  /** An ASCII decimal digit (wider Unicode digits are not modelled). */
  predicate IsDigit(c: char) {
    '0' <= c <= '9'
  }

  /** Python's `w.isdigit()`: non-empty and made of digits only. */
  predicate IsDigitWord(w: string) {
    w != [] && forall k :: 0 <= k < |w| ==> IsDigit(w[k])
  }

  function DigitValue(c: char): nat
    requires IsDigit(c)
  {
    c as int - '0' as int
  }

  function DigitChar(d: nat): char
    requires d < 10
  {
    ('0' as int + d) as char
  }

  /** `int(w)` for a word of digits, read most significant digit first. */
  function DigitsValue(w: string): nat
    requires forall k :: 0 <= k < |w| ==> IsDigit(w[k])
  {
    if w == [] then 0 else DigitsValue(w[..|w| - 1]) * 10 + DigitValue(w[|w| - 1])
  }

  /** `str(n)` for a natural number: its decimal digits without leading zeros. */
  function NatToString(n: nat): (s: string)
    ensures IsDigitWord(s)
    ensures s[0] == '0' ==> n == 0
  {
    if n < 10 then [DigitChar(n)] else NatToString(n / 10) + [DigitChar(n % 10)]
  }

  /** `int(str(n)) == n`: reading back the decimal form gives the number. */
  lemma {:induction false} DigitsValueOfNatToString(n: nat)
    ensures DigitsValue(NatToString(n)) == n
  {
    var s := NatToString(n);
    if n < 10 {
      assert s[..0] == [];
    } else {
      DigitsValueOfNatToString(n / 10);
      assert s[..|s| - 1] == NatToString(n / 10);
    }
  }

  /** `str` is injective on natural numbers. */
  lemma NatToStringInjective(m: nat, n: nat)
    requires NatToString(m) == NatToString(n)
    ensures m == n
  {
    DigitsValueOfNatToString(m);
    DigitsValueOfNatToString(n);
  }

  /** Appending a digit multiplies the value by ten and adds the digit. */
  lemma DigitsValueAppend(w: string, c: char)
    requires forall k :: 0 <= k < |w| ==> IsDigit(w[k])
    requires IsDigit(c)
    ensures DigitsValue(w + [c]) == DigitsValue(w) * 10 + DigitValue(c)
  {
    assert (w + [c])[..|w|] == w;
  }

  /** The value of a four-digit word. */
  lemma FourDigitsValue(a: char, b: char, c: char, d: char)
    requires IsDigit(a) && IsDigit(b) && IsDigit(c) && IsDigit(d)
    ensures DigitsValue([a, b, c, d]) == DigitValue(a) * 1000 + DigitValue(b) * 100 + DigitValue(c) * 10 + DigitValue(d)
  {
    DigitsValueAppend([], a);
    DigitsValueAppend([a], b);
    DigitsValueAppend([a, b], c);
    DigitsValueAppend([a, b, c], d);
    assert [] + [a] == [a] && [a] + [b] == [a, b] && [a, b] + [c] == [a, b, c] && [a, b, c] + [d] == [a, b, c, d];
  }

  /** `int` ignores leading zeros: `int("007") == int("7")`. */
  lemma {:induction false} LeadingZeroIgnored(w: string)
    requires forall k :: 0 <= k < |w| ==> IsDigit(w[k])
    ensures DigitsValue(['0'] + w) == DigitsValue(w)
  {
    var z := ['0'] + w;
    if w == [] {
      assert z[..0] == [];
    } else {
      assert z[..|z| - 1] == ['0'] + w[..|w| - 1];
      LeadingZeroIgnored(w[..|w| - 1]);
    }
  }

  /** The longest prefix of `s` that holds no whitespace. */
  function LeadingWord(s: string): (w: string)
    ensures |w| <= |s| && w == s[..|w|]
    ensures NoSpace(w)
    ensures |w| < |s| ==> IsSpace(s[|w|])
  {
    if s == [] || IsSpace(s[0]) then [] else [s[0]] + LeadingWord(s[1..])
  }

  /** Python's `s.split()`: the maximal runs of non-whitespace characters, left to right. */
  function Tokens(s: string): (ts: seq<string>)
    ensures forall k :: 0 <= k < |ts| ==> ts[k] != [] && NoSpace(ts[k])
    decreases |s|
  {
    if s == [] then []
    else if IsSpace(s[0]) then Tokens(s[1..])
    else
      var w := LeadingWord(s);
      [w] + Tokens(s[|w|..])
  }

  /** `sep.join(items)`. */
  function Join(sep: string, items: seq<string>): string {
    if items == [] then ""
    else if |items| == 1 then items[0]
    else items[0] + sep + Join(sep, items[1..])
  }

  /** The one-character strings of `s`: what `sep.join(s)` iterates over when given a string. */
  function Chars(s: string): seq<string>
  {
    seq(|s|, k requires 0 <= k < |s| => [s[k]])
  }

  lemma {:induction false} LeadingWordStopsAtSpace(s: string, u: string)
    requires u != [] && IsSpace(u[0])
    ensures LeadingWord(s + u) == LeadingWord(s)
  {
    if s == [] {
      assert s + u == u;
    } else if !IsSpace(s[0]) {
      assert (s + u)[1..] == s[1..] + u;
      LeadingWordStopsAtSpace(s[1..], u);
    }
  }

  /** Splitting two strings glued by one whitespace character gives the tokens of each, in order. */
  lemma {:induction false} TokensOfSpaceJoin(s: string, c: char, t: string)
    requires IsSpace(c)
    ensures Tokens(s + [c] + t) == Tokens(s) + Tokens(t)
    decreases |s|
  {
    var u := [c] + t;
    assert s + [c] + t == s + u;
    if s == [] {
      assert s + u == u;
      assert u[1..] == t;
    } else if IsSpace(s[0]) {
      assert (s + u)[1..] == s[1..] + u;
      TokensOfSpaceJoin(s[1..], c, t);
      assert s[1..] + u == s[1..] + [c] + t;
    } else {
      var w := LeadingWord(s);
      LeadingWordStopsAtSpace(s, u);
      assert (s + u)[|w|..] == s[|w|..] + u;
      TokensOfSpaceJoin(s[|w|..], c, t);
      assert s[|w|..] + u == s[|w|..] + [c] + t;
    }
  }

  /** A non-empty word without whitespace splits into itself alone. */
  lemma {:induction false} TokensOfWord(w: string)
    requires w != [] && NoSpace(w)
    ensures Tokens(w) == [w]
  {
    LeadingWordOfWord(w);
    assert w[|w|..] == [];
  }

  lemma {:induction false} LeadingWordOfWord(w: string)
    requires NoSpace(w)
    ensures LeadingWord(w) == w
  {
    if w != [] {
      assert NoSpace(w[1..]) by {
        forall k | 0 <= k < |w| - 1 ensures !IsSpace(w[1..][k]) {
          assert w[1..][k] == w[k + 1];
        }
      }
      LeadingWordOfWord(w[1..]);
    }
  }

  /** Round trip: splitting the space-joined words gives the words back. */
  lemma {:induction false} TokensOfJoin(ws: seq<string>)
    requires forall k :: 0 <= k < |ws| ==> ws[k] != [] && NoSpace(ws[k])
    ensures Tokens(Join(" ", ws)) == ws
  {
    if |ws| == 1 {
      TokensOfWord(ws[0]);
    } else if |ws| > 1 {
      TokensOfJoin(ws[1..]);
      TokensOfWord(ws[0]);
      TokensOfSpaceJoin(ws[0], ' ', Join(" ", ws[1..]));
      assert ws[0] + " " + Join(" ", ws[1..]) == ws[0] + [' '] + Join(" ", ws[1..]);
      assert [ws[0]] + ws[1..] == ws;
    }
  }

  /** Joining two non-empty lists puts exactly one separator between their joins. */
  lemma {:induction false} JoinAppend(sep: string, a: seq<string>, b: seq<string>)
    requires a != [] && b != []
    ensures Join(sep, a + b) == Join(sep, a) + sep + Join(sep, b)
  {
    if |a| == 1 {
      assert (a + b)[1..] == b;
    } else {
      assert (a + b)[1..] == a[1..] + b;
      JoinAppend(sep, a[1..], b);
    }
  }

  /** The join of a list is empty exactly when the list is empty or is one empty string. */
  lemma JoinEmptyIff(sep: string, items: seq<string>)
    requires sep != ""
    ensures Join(sep, items) == "" <==> items == [] || items == [""]
  {
    if |items| > 1 {
      assert |Join(sep, items)| >= |sep|;
    }
  }

  /** The join of a list starts with its first item. */
  lemma JoinStartsWithFirst(sep: string, items: seq<string>)
    requires items != []
    ensures items[0] <= Join(sep, items)
  {
  }
}

/**
 The string operations the header parsers are made of: trimming, splitting at the first occurrence of
 a character, comparing without regard to ASCII case, and decimal numbers.
 */
module Text {
  import opened Wrappers

  // ----- Whitespace

  /** The Unicode `White_Space` property, which trimming uses. */
  predicate IsSpace(c: char) {
    || '\t' <= c <= '\r' || c == ' ' || c == '\U{0085}' || c == '\U{00A0}' || c == '\U{1680}'
    || '\U{2000}' <= c <= '\U{200A}' || c == '\U{2028}' || c == '\U{2029}' || c == '\U{202F}'
    || c == '\U{205F}' || c == '\U{3000}'
  }

  predicate IsAsciiSpace(c: char) { c == ' ' || c == '\t' || c == '\n' || c == '\U{000C}' || c == '\r' }

  predicate AllSpace(s: string) { forall i | 0 <= i < |s| :: IsSpace(s[i]) }

  function TrimStart(s: string): string {
    if s != "" && IsSpace(s[0]) then TrimStart(s[1..]) else s
  }

  function TrimEnd(s: string): string {
    if s != "" && IsSpace(s[|s| - 1]) then TrimEnd(s[..|s| - 1]) else s
  }

  function Trim(s: string): string { TrimEnd(TrimStart(s)) }

  predicate StartsClean(s: string) { s == "" || !IsSpace(s[0]) }

  predicate EndsClean(s: string) { s == "" || !IsSpace(s[|s| - 1]) }

  /** Trimming the start removes exactly the leading whitespace. */
  lemma {:induction false} TrimStartIs(w: string, s: string)
    requires AllSpace(w) && StartsClean(s)
    ensures TrimStart(w + s) == s
  {
    if w == "" {
      assert w + s == s;
    } else {
      assert (w + s)[1..] == w[1..] + s;
      TrimStartIs(w[1..], s);
    }
  }

  lemma {:induction false} TrimStartSplits(s: string) returns (w: string)
    ensures AllSpace(w) && s == w + TrimStart(s) && StartsClean(TrimStart(s))
  {
    if s != "" && IsSpace(s[0]) {
      var v := TrimStartSplits(s[1..]);
      w := [s[0]] + v;
      assert [s[0]] + v + TrimStart(s[1..]) == [s[0]] + s[1..] == s;
    } else {
      w := "";
      assert "" + s == s;
    }
  }

  lemma {:induction false} TrimEndIs(s: string, w: string)
    requires AllSpace(w) && EndsClean(s)
    ensures TrimEnd(s + w) == s
  {
    if w == "" {
      assert s + w == s;
    } else {
      assert (s + w)[..|s + w| - 1] == s + w[..|w| - 1];
      TrimEndIs(s, w[..|w| - 1]);
    }
  }

  lemma {:induction false} TrimEndSplits(s: string) returns (w: string)
    ensures AllSpace(w) && s == TrimEnd(s) + w && EndsClean(TrimEnd(s))
  {
    if s != "" && IsSpace(s[|s| - 1]) {
      var v := TrimEndSplits(s[..|s| - 1]);
      w := v + [s[|s| - 1]];
      assert s == s[..|s| - 1] + [s[|s| - 1]];
    } else {
      w := "";
    }
  }

  /** Trimming removes exactly the whitespace around a text that starts and ends with none. */
  lemma TrimIs(v: string, s: string, w: string)
    requires AllSpace(v) && AllSpace(w) && StartsClean(s) && EndsClean(s)
    ensures Trim(v + s + w) == s
  {
    if s == "" {
      assert v + s + w == (v + w) + "";
      TrimStartIs(v + w, "");
    } else {
      assert v + s + w == v + (s + w);
      TrimStartIs(v, s + w);
      TrimEndIs(s, w);
    }
  }

  lemma TrimSplits(s: string) returns (v: string, w: string)
    ensures AllSpace(v) && AllSpace(w) && s == v + Trim(s) + w && StartsClean(Trim(s)) && EndsClean(Trim(s))
  {
    v := TrimStartSplits(s);
    w := TrimEndSplits(TrimStart(s));
    assert Trim(s) != "" ==> Trim(s)[0] == TrimStart(s)[0];
  }

  // ----- Splitting

  /** The first occurrence of `c`, or the end. */
  function Find(s: string, c: char): (i: nat)
    ensures i <= |s| && (i < |s| ==> s[i] == c)
    ensures forall j | 0 <= j < i :: s[j] != c
  {
    if s == "" || s[0] == c then 0 else 1 + Find(s[1..], c)
  }

  lemma FindIs(a: string, c: char, b: string)
    requires c !in a
    ensures Find(a + [c] + b, c) == |a|
  {
    var s := a + [c] + b;
    assert s[|a|] == c;
    assert forall j | 0 <= j < |a| :: s[j] == a[j] && a[j] in a;
  }

  lemma FindNone(a: string, c: char)
    requires c !in a
    ensures Find(a, c) == |a|
  {
  }

  /** The parts before and after the first occurrence of `c`. */
  function SplitOnce(s: string, c: char): Option<(string, string)> {
    var i := Find(s, c);
    if i < |s| then Some((s[..i], s[i + 1..])) else None
  }

  lemma SplitOnceIs(a: string, c: char, b: string)
    requires c !in a
    ensures SplitOnce(a + [c] + b, c) == Some((a, b))
  {
    FindIs(a, c, b);
    var s := a + [c] + b;
    assert s[..|a|] == a && s[|a| + 1..] == b;
  }

  lemma SplitOnceSplits(s: string, c: char)
    requires SplitOnce(s, c).Some?
    ensures s == SplitOnce(s, c).value.0 + [c] + SplitOnce(s, c).value.1
  {
  }

  // ----- ASCII case

  function Lower(c: char): char { if 'A' <= c <= 'Z' then c - 'A' + 'a' else c }

  predicate EqIgnoreCase(s: string, t: string) {
    |s| == |t| && forall i | 0 <= i < |s| :: Lower(s[i]) == Lower(t[i])
  }

  /** One of the 26 letters, in either case. */
  predicate IsLetter(c: char, i: nat) { i < 26 && (c == 'A' + i as char || c == 'a' + i as char) }

  /** Texts are the same up to case exactly if they differ at most in the case of letters. */
  lemma EqIgnoreCaseIff(s: string, t: string)
    ensures EqIgnoreCase(s, t) <==>
            |s| == |t| && forall j | 0 <= j < |s| :: s[j] == t[j] || exists i :: IsLetter(s[j], i) && IsLetter(t[j], i)
  {
    forall c: char, d: char ensures Lower(c) == Lower(d) <==> c == d || exists i :: IsLetter(c, i) && IsLetter(d, i) {
      LowerIff(c, d);
    }
  }

  lemma LowerIff(c: char, d: char)
    ensures Lower(c) == Lower(d) <==> c == d || exists i :: IsLetter(c, i) && IsLetter(d, i)
  {
    if Lower(c) == Lower(d) && c != d {
      var i := (Lower(c) - 'a') as nat;
      assert IsLetter(c, i) && IsLetter(d, i);
    }
  }

  // ----- Decimal numbers

  predicate IsDigit(c: char) { '0' <= c <= '9' }

  predicate AllDigits(s: string) { forall i | 0 <= i < |s| :: IsDigit(s[i]) }

  function Digit(n: nat): char
    requires n < 10
  {
    '0' + n as char
  }

  function DigitValue(c: char): nat
    requires IsDigit(c)
  {
    (c - '0') as nat
  }

  /** The decimal form without leading zeros. */
  function Decimal(n: nat): string {
    if n < 10 then [Digit(n)] else Decimal(n / 10) + [Digit(n % 10)]
  }

  function NumberValue(s: string): nat
    requires AllDigits(s)
  {
    if s == "" then 0 else 10 * NumberValue(s[..|s| - 1]) + DigitValue(s[|s| - 1])
  }

  lemma {:induction false} DecimalReads(n: nat)
    ensures AllDigits(Decimal(n)) && Decimal(n) != "" && NumberValue(Decimal(n)) == n
  {
    if n >= 10 {
      DecimalReads(n / 10);
      assert Decimal(n)[..|Decimal(n)| - 1] == Decimal(n / 10);
    } else {
      assert Decimal(n)[..0] == "";
    }
  }
}

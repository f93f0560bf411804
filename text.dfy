/**
 * Text as Go's fmt builds it here: messages are made of lines, each ended by
 * a newline, and integers are printed in decimal (`%d`).
 */
module Text {

  /** A string that stays on one line. */
  predicate NoNewline(s: string) {
    '\n' !in s
  }

  /** A fixed piece of wording that stays on one line. */
  type OneLine = s: string | NoNewline(s)

  /** The text made of the given lines, each followed by "\n". */
  function Unlines(ls: seq<string>): (r: string)
    ensures ls == [] <==> r == []
    ensures r != [] ==> r[|r| - 1] == '\n'
  {
    if ls == [] then [] else Unlines(ls[..|ls| - 1]) + ls[|ls| - 1] + "\n"
  }

  /** Index of the first newline of `s`, or |s| when there is none. */
  function LineEnd(s: string): (k: nat)
    ensures k <= |s|
    ensures k < |s| ==> s[k] == '\n'
    ensures forall j :: 0 <= j < k ==> s[j] != '\n'
  {
    if s == [] || s[0] == '\n' then 0 else 1 + LineEnd(s[1..])
  }

  /** The lines of `s`: its pieces between newlines, a final newline ending the last one. */
  function Lines(s: string): seq<string>
    decreases |s|
  {
    if s == [] then []
    else
      var k := LineEnd(s);
      if k < |s| then [s[..k]] + Lines(s[k + 1..]) else [s]
  }

  lemma UnlinesSnoc(ls: seq<string>, l: string)
    ensures Unlines(ls + [l]) == Unlines(ls) + l + "\n"
  {
    assert (ls + [l])[..|ls|] == ls;
  }

  /** Appending one more line to a text written line by line. */
  lemma AppendLine(text: string, ls: seq<string>, l: string)
    ensures text + Unlines(ls) + l + "\n" == text + Unlines(ls + [l])
  {
    UnlinesSnoc(ls, l);
  }

  /** Appending more lines to a text written line by line. */
  lemma AppendLines(text: string, a: seq<string>, b: seq<string>)
    ensures text + Unlines(a) + Unlines(b) == text + Unlines(a + b)
  {
    UnlinesAppend(a, b);
  }

  /** Writing two groups of lines one after the other is writing all of them. */
  lemma {:induction false} UnlinesAppend(a: seq<string>, b: seq<string>)
    ensures Unlines(a + b) == Unlines(a) + Unlines(b)
    decreases |b|
  {
    if b == [] {
      assert a + b == a;
    } else {
      var init, last := b[..|b| - 1], b[|b| - 1];
      assert b == init + [last];
      assert a + b == (a + init) + [last];
      UnlinesAppend(a, init);
      UnlinesSnoc(a + init, last);
      UnlinesSnoc(init, last);
      var x, y := Unlines(a), Unlines(init);
      assert (x + y) + last + "\n" == x + (y + last + "\n");
    }
  }

  /** A line, its newline and more text: the first line read back is that line. */
  lemma LinesCons(l: string, t: string)
    requires NoNewline(l)
    ensures Lines(l + "\n" + t) == [l] + Lines(t)
  {
    var s := l + "\n" + t;
    assert forall j :: 0 <= j < |l| ==> s[j] == l[j] && l[j] != '\n';
    assert s[|l|] == '\n';
    var k := LineEnd(s);
    assert k == |l|;
    assert s[..k] == l;
    assert s[k + 1..] == t;
  }

  /** A text written line by line starts with its first line. */
  lemma UnlinesCons(ls: seq<string>)
    requires ls != []
    ensures Unlines(ls) == ls[0] + "\n" + Unlines(ls[1..])
  {
    assert ls == [ls[0]] + ls[1..];
    UnlinesAppend([ls[0]], ls[1..]);
    UnlinesSnoc([], ls[0]);
    assert [] + [ls[0]] == [ls[0]];
  }

  /** Reading back the lines of a text written line by line gives exactly those lines. */
  lemma {:induction false} LinesUnlines(ls: seq<string>)
    requires forall i :: 0 <= i < |ls| ==> NoNewline(ls[i])
    ensures Lines(Unlines(ls)) == ls
    decreases |ls|
  {
    if ls != [] {
      var rest := ls[1..];
      assert forall i :: 0 <= i < |rest| ==> NoNewline(rest[i]) by {
        forall i | 0 <= i < |rest| ensures NoNewline(rest[i]) { assert rest[i] == ls[i + 1]; }
      }
      calc {
        Lines(Unlines(ls));
        { UnlinesCons(ls); }
        Lines(ls[0] + "\n" + Unlines(rest));
        { LinesCons(ls[0], Unlines(rest)); }
        [ls[0]] + Lines(Unlines(rest));
        { LinesUnlines(rest); }
        [ls[0]] + rest;
        ls;
      }
    }
  }

  // ---------------------------------------------------------------------------
  // Decimal digits

  predicate IsDigit(c: char) {
    '0' <= c <= '9'
  }

  predicate AllDigits(s: string) {
    forall i :: 0 <= i < |s| ==> IsDigit(s[i])
  }

  function DigitChar(d: nat): (c: char)
    requires d < 10
    ensures IsDigit(c) && c as int - '0' as int == d
  {
    ('0' as int + d) as char
  }

  /** The number a string of decimal digits denotes (most significant digit first). */
  function DigitsValue(s: string): int {
    if s == [] then 0 else 10 * DigitsValue(s[..|s| - 1]) + (s[|s| - 1] as int - '0' as int)
  }

  /** `%d` of a natural number: its decimal digits without leading zeros. */
  function NatToString(n: nat): (r: string)
    ensures |r| > 0 && AllDigits(r)
    ensures |r| > 1 ==> r[0] != '0'
  {
    if n < 10 then [DigitChar(n)] else NatToString(n / 10) + [DigitChar(n % 10)]
  }

  /** The printed digits denote the number printed. */
  lemma {:induction false} NatToStringValue(n: nat)
    ensures DigitsValue(NatToString(n)) == n
  {
    if n >= 10 {
      var s := NatToString(n / 10);
      NatToStringValue(n / 10);
      assert (s + [DigitChar(n % 10)])[..|s|] == s;
    }
  }

  function Pow10(k: nat): (p: nat)
    ensures p >= 1
  {
    if k == 0 then 1 else 10 * Pow10(k - 1)
  }

  /** A number below 10^k is printed with at most k digits. */
  lemma {:induction false} NatToStringLength(n: nat, k: nat)
    requires 1 <= k && n < Pow10(k)
    ensures |NatToString(n)| <= k
    decreases k
  {
    assert Pow10(1) == 10;
    if n >= 10 {
      NatToStringLength(n / 10, k - 1);
    }
  }

  /**
   * `%d` of a (signed) Go integer: the canonical decimal digits, with no
   * leading zero, behind a minus sign when the number is negative.
   */
  function IntToString(n: int): (r: string)
    ensures NoNewline(r)
    ensures n >= 0 ==> |r| >= 1 && AllDigits(r) && DigitsValue(r) == n && (|r| > 1 ==> r[0] != '0')
    ensures n < 0 ==> |r| >= 2 && r[0] == '-' && r[1] != '0' && AllDigits(r[1..]) && DigitsValue(r[1..]) == -n
  {
    if n < 0 then
      var digits := NatToString(-n);
      NatToStringValue(-n);
      assert digits[0] != '0' by {
        if |digits| == 1 {
          assert DigitsValue(digits) == digits[0] as int - '0' as int;
        }
      }
      assert ("-" + digits)[1..] == digits;
      "-" + digits
    else
      NatToStringValue(n);
      NatToString(n)
  }

  function Zeros(k: nat): (r: string)
    ensures |r| == k && forall i :: 0 <= i < k ==> r[i] == '0'
  {
    seq(k, _ => '0')
  }

  lemma {:induction false} ZerosValue(k: nat)
    ensures DigitsValue(Zeros(k)) == 0
  {
    if k > 0 {
      assert Zeros(k)[..k - 1] == Zeros(k - 1);
      ZerosValue(k - 1);
    }
  }

  /** Leading zeros do not change the number denoted. */
  lemma {:induction false} LeadingZerosValue(k: nat, s: string)
    ensures DigitsValue(Zeros(k) + s) == DigitsValue(s)
    decreases |s|
  {
    if s == [] {
      assert Zeros(k) + s == Zeros(k);
      ZerosValue(k);
    } else {
      var t := Zeros(k) + s;
      assert t[..|t| - 1] == Zeros(k) + s[..|s| - 1];
      LeadingZerosValue(k, s[..|s| - 1]);
    }
  }

  /** Go's zero-padded layout fields ("02", "2006"): at least `width` digits. */
  function ZeroPad(n: nat, width: nat): (r: string)
    ensures AllDigits(r)
    ensures |NatToString(n)| <= width ==> |r| == width
  {
    var digits := NatToString(n);
    if |digits| < width then Zeros(width - |digits|) + digits else digits
  }

  /** Padding never changes the value printed. */
  lemma ZeroPadValue(n: nat, width: nat)
    ensures DigitsValue(ZeroPad(n, width)) == n
  {
    var digits := NatToString(n);
    NatToStringValue(n);
    if |digits| < width {
      assert ZeroPad(n, width) == Zeros(width - |digits|) + digits;
      LeadingZerosValue(width - |digits|, digits);
    } else {
      assert ZeroPad(n, width) == digits;
    }
  }
}

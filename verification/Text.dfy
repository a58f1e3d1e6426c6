/** Strings as the services use them: digit filtering, trimming, decimal rendering and text order. */
module Text {

  datatype Option<+T> = None | Some(value: T)

  predicate IsDigit(c: char) { '0' <= c <= '9' }

  /** What `str.strip` takes off, within ASCII. */
  predicate IsSpace(c: char) { 9 <= c as int <= 13 || 28 <= c as int <= 32 }

  predicate AllDigits(s: string) { forall i :: 0 <= i < |s| ==> IsDigit(s[i]) }

  /** `re.sub(r"\D+", "", s)`: the digits of `s`, in order. */
  function Digits(s: string): string {
    if s == [] then [] else (if IsDigit(s[0]) then [s[0]] else []) + Digits(s[1..])
  }

  function LeftStrip(s: string): string {
    if s != [] && IsSpace(s[0]) then LeftStrip(s[1..]) else s
  }

  function RightStrip(s: string): string {
    if s != [] && IsSpace(s[|s| - 1]) then RightStrip(s[..|s| - 1]) else s
  }

  /** `s.strip()`. */
  function Strip(s: string): string { RightStrip(LeftStrip(s)) }

  /** `s[-n:]`, for a positive `n`. */
  function LastDigits(s: string, n: nat): string { if |s| <= n then s else s[|s| - n..] }

  function LastThree(s: string): string { LastDigits(s, 3) }

  function Lower(s: string): string { seq(|s|, i requires 0 <= i < |s| => LowerChar(s[i])) }

  function LowerChar(c: char): char { if 'A' <= c <= 'Z' then (c as int + 32) as char else c }

  predicate Contains(s: string, needle: string) { exists k :: 0 <= k <= |s| && needle <= s[k..] }

  lemma {:induction false} DigitsConcat(a: string, b: string)
    ensures Digits(a + b) == Digits(a) + Digits(b)
  {
    if a == [] {
      assert a + b == b;
    } else {
      DigitsConcat(a[1..], b);
      assert (a + b)[0] == a[0] && (a + b)[1..] == a[1..] + b;
      var head := if IsDigit(a[0]) then [a[0]] else [];
      assert head + (Digits(a[1..]) + Digits(b)) == (head + Digits(a[1..])) + Digits(b);
    }
  }

  lemma {:induction false} DigitsAreDigits(s: string)
    ensures AllDigits(Digits(s))
  {
    if s != [] { DigitsAreDigits(s[1..]); }
  }

  lemma {:induction false} DigitsOfDigits(s: string)
    requires AllDigits(s)
    ensures Digits(s) == s
  {
    if s != [] { DigitsOfDigits(s[1..]); }
  }

  /** Trimming never costs a digit. */
  lemma DigitsOfStrip(s: string)
    ensures Digits(Strip(s)) == Digits(s)
  {
    LeftStripKeepsDigits(s);
    RightStripKeepsDigits(LeftStrip(s));
  }

  lemma {:induction false} LeftStripKeepsDigits(s: string)
    ensures Digits(LeftStrip(s)) == Digits(s)
  {
    if s != [] && IsSpace(s[0]) { LeftStripKeepsDigits(s[1..]); }
  }

  lemma {:induction false} RightStripKeepsDigits(s: string)
    ensures Digits(RightStrip(s)) == Digits(s)
  {
    if s != [] && IsSpace(s[|s| - 1]) {
      var n := |s| - 1;
      RightStripKeepsDigits(s[..n]);
      DigitsConcat(s[..n], [s[n]]);
      assert s == s[..n] + [s[n]];
    }
  }

  // ------------------------------------------------------------------ what trimming does

  predicate AllSpaces(s: string) { forall i :: 0 <= i < |s| ==> IsSpace(s[i]) }

  /** `t` is `s` without the whitespace around it. */
  predicate Trimmed(t: string, s: string) {
    && (exists i, j :: 0 <= i <= j <= |s| && CutsOut(t, s, i, j))
    && (t != [] ==> !IsSpace(t[0]) && !IsSpace(t[|t| - 1]))
  }

  predicate CutsOut(t: string, s: string, i: nat, j: nat)
    requires i <= j <= |s|
  {
    t == s[i..j] && AllSpaces(s[..i]) && AllSpaces(s[j..])
  }

  lemma {:induction false} LeftStripCuts(s: string) returns (i: nat)
    ensures i <= |s| && LeftStrip(s) == s[i..] && AllSpaces(s[..i])
    ensures LeftStrip(s) != [] ==> !IsSpace(LeftStrip(s)[0])
  {
    if s != [] && IsSpace(s[0]) {
      var k := LeftStripCuts(s[1..]);
      i := k + 1;
      forall a | 0 <= a < i ensures IsSpace(s[..i][a]) {
        if a > 0 { assert s[1..][..k][a - 1] == s[a]; }
      }
    } else {
      i := 0;
    }
  }

  lemma {:induction false} RightStripCuts(s: string) returns (j: nat)
    ensures j <= |s| && RightStrip(s) == s[..j] && AllSpaces(s[j..])
    ensures RightStrip(s) != [] ==> !IsSpace(RightStrip(s)[|RightStrip(s)| - 1])
  {
    if s != [] && IsSpace(s[|s| - 1]) {
      var n := |s| - 1;
      j := RightStripCuts(s[..n]);
      forall a | 0 <= a < |s| - j ensures IsSpace(s[j..][a]) {
        if j + a < n { assert s[..n][j..][a] == s[j + a]; }
      }
    } else {
      j := |s|;
    }
  }

  /** Stripping trims. */
  lemma StripTrims(s: string)
    ensures Trimmed(Strip(s), s)
  {
    var i := LeftStripCuts(s);
    var left := LeftStrip(s);
    var k := RightStripCuts(left);
    var t := Strip(s);
    assert s[i + k..] == left[k..] && t == s[i..i + k];
    assert CutsOut(t, s, i, i + k);
    if t != [] { assert t[0] == left[0]; }
  }

  lemma SpacesAround(s: string, i: nat, j: nat)
    requires i <= j <= |s| && AllSpaces(s[..i]) && AllSpaces(s[j..])
    ensures forall a :: 0 <= a < |s| && (a < i || j <= a) ==> IsSpace(s[a])
  {
    forall a | 0 <= a < |s| && (a < i || j <= a) ensures IsSpace(s[a]) {
      if a < i { assert s[..i][a] == s[a]; } else { assert s[j..][a - j] == s[a]; }
    }
  }

  lemma TrimmedToNothing(t: string, s: string)
    requires Trimmed(t, s)
    ensures t == [] <==> AllSpaces(s)
  {
    var i, j :| 0 <= i <= j <= |s| && CutsOut(t, s, i, j);
    if t == [] {
      SpacesAround(s, i, j);
    } else {
      assert t[0] == s[i];
    }
  }

  /** Where a trimmed text that is not empty begins and ends in the text it is trimmed from. */
  predicate Spans(s: string, i: nat, j: nat) {
    && i < j <= |s| && !IsSpace(s[i]) && !IsSpace(s[j - 1])
    && forall a :: 0 <= a < |s| && (a < i || j <= a) ==> IsSpace(s[a])
  }

  lemma TrimmedSpans(t: string, s: string) returns (i: nat, j: nat)
    requires Trimmed(t, s) && t != []
    ensures Spans(s, i, j) && t == s[i..j]
  {
    i, j :| 0 <= i <= j <= |s| && CutsOut(t, s, i, j);
    SpacesAround(s, i, j);
    assert t[0] == s[i] && t[|t| - 1] == s[j - 1];
  }

  lemma OneSpan(s: string, i: nat, j: nat, k: nat, l: nat)
    requires Spans(s, i, j) && Spans(s, k, l)
    ensures i == k && j == l
  {
  }

  /** There is one way to trim a text. */
  lemma TrimmedOneWay(t: string, u: string, s: string)
    requires Trimmed(t, s) && Trimmed(u, s)
    ensures t == u
  {
    TrimmedToNothing(t, s);
    TrimmedToNothing(u, s);
    if t != [] {
      var i, j := TrimmedSpans(t, s);
      var k, l := TrimmedSpans(u, s);
      OneSpan(s, i, j, k, l);
    }
  }

  // ------------------------------------------------------------------ decimals

  function DigitChar(d: nat): (c: char)
    requires d < 10
    ensures IsDigit(c) && DigitValue(c) == d
  {
    ('0' as int + d) as char
  }

  function DigitValue(c: char): (d: nat)
    requires IsDigit(c)
    ensures d < 10
  {
    c as int - '0' as int
  }

  /** Decimal digits of `n`, zero-padded on the left to at least `width` characters (`f"{n:0{width}d}"`). */
  function Padded(n: nat, width: nat): (s: string)
    ensures AllDigits(s)
    ensures |s| >= width
    decreases n, width
  {
    if n < 10 && width <= 1 then [DigitChar(n)]
    else Padded(n / 10, if width == 0 then 0 else width - 1) + [DigitChar(n % 10)]
  }

  /** The number a digit string denotes. */
  function Numeral(s: string): nat
    requires AllDigits(s)
  {
    if s == [] then 0 else 10 * Numeral(s[..|s| - 1]) + DigitValue(s[|s| - 1])
  }

  /** Rendering loses nothing: the number is read back whatever the padding. */
  lemma {:induction false} PaddedRoundTrip(n: nat, width: nat)
    ensures Numeral(Padded(n, width)) == n
    decreases n, width
  {
    var s := Padded(n, width);
    if n < 10 && width <= 1 {
      assert s[..0] == [];
      assert Numeral(s[..0]) == 0;
    } else {
      var w := if width == 0 then 0 else width - 1;
      PaddedRoundTrip(n / 10, w);
      assert s[..|s| - 1] == Padded(n / 10, w);
    }
  }

  function Pow10(w: nat): nat { if w == 0 then 1 else 10 * Pow10(w - 1) }

  /** Below 10^width the rendering is exactly `width` characters wide. */
  lemma {:induction false} PaddedWidth(n: nat, width: nat)
    requires 1 <= width && n < Pow10(width)
    ensures |Padded(n, width)| == width
  {
    if width > 1 { PaddedWidth(n / 10, width - 1); }
  }

  // ------------------------------------------------------------------ text order

  /** Codepoint order on strings, the order of a TEXT column. */
  predicate TextBefore(a: string, b: string) {
    b != [] && (a == [] || a[0] < b[0] || (a[0] == b[0] && TextBefore(a[1..], b[1..])))
  }

  lemma {:induction false} TextBeforeAsymmetric(a: string, b: string)
    requires TextBefore(a, b)
    ensures a != b && !TextBefore(b, a)
  {
    if a != [] && a[0] == b[0] { TextBeforeAsymmetric(a[1..], b[1..]); }
  }

  lemma {:induction false} TextBeforeSharedHead(p: string, s: string, t: string)
    requires TextBefore(s, t)
    ensures TextBefore(p + s, p + t)
  {
    if p == [] {
      assert p + s == s && p + t == t;
    } else {
      TextBeforeSharedHead(p[1..], s, t);
      assert (p + s)[1..] == p[1..] + s && (p + t)[1..] == p[1..] + t;
    }
  }

  /** Numbers padded to one width order as text, whatever follows them. */
  lemma {:induction false} PaddedOrder(m: nat, n: nat, width: nat, s: string, t: string)
    requires m < n && 1 <= width && n < Pow10(width)
    ensures TextBefore(Padded(m, width) + s, Padded(n, width) + t)
    decreases width
  {
    if width > 1 {
      var a, b := [DigitChar(m % 10)], [DigitChar(n % 10)];
      var p, q := Padded(m / 10, width - 1), Padded(n / 10, width - 1);
      assert Padded(m, width) + s == p + (a + s) && Padded(n, width) + t == q + (b + t);
      if m / 10 < n / 10 {
        PaddedOrder(m / 10, n / 10, width - 1, a + s, b + t);
      } else {
        TextBeforeSharedHead(p, a + s, b + t);
      }
    }
  }
}

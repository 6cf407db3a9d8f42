/**
 * Canonical decimal amounts.  A decimal string denotes a whole number of 10^-10 units; its
 * canonical form drops leading zeros of the whole part and trailing zeros of the fraction.  The
 * two amount types differ only in how many whole digits they allow.
 */
module Decimals {
  import opened Wrappers

  const AMOUNT_DIGITS: nat := 10
  const CUMULATIVE_DIGITS: nat := 30
  const FRACTION_DIGITS: nat := 10

  /** The characters that `str::trim` removes: the White_Space property of Unicode. */
  predicate IsSpace(c: char) {
    || '\U{9}' <= c <= '\U{D}' || c == ' ' || c == '\U{85}' || c == '\U{A0}' || c == '\U{1680}'
    || '\U{2000}' <= c <= '\U{200A}' || c == '\U{2028}' || c == '\U{2029}'
    || c == '\U{202F}' || c == '\U{205F}' || c == '\U{3000}'
  }

  predicate IsDigit(c: char) {
    '0' <= c <= '9'
  }

  predicate Digits(s: string) {
    forall i | 0 <= i < |s| :: IsDigit(s[i])
  }

  function TrimStart(s: string): string {
    if s != [] && IsSpace(s[0]) then TrimStart(s[1..]) else s
  }

  function TrimEnd(s: string): string {
    if s != [] && IsSpace(s[|s| - 1]) then TrimEnd(s[..|s| - 1]) else s
  }

  /** Index of the first '.', or the length. */
  function PointOf(s: string): (r: nat)
    ensures r <= |s|
    ensures forall i | 0 <= i < r :: s[i] != '.'
    ensures r < |s| ==> s[r] == '.'
  {
    if s == [] || s[0] == '.' then 0 else 1 + PointOf(s[1..])
  }

  function DropLeadingZeros(s: string): string {
    if s != [] && s[0] == '0' then DropLeadingZeros(s[1..]) else s
  }

  function DropTrailingZeros(s: string): string {
    if s != [] && s[|s| - 1] == '0' then DropTrailingZeros(s[..|s| - 1]) else s
  }

  datatype Parts = Parts(whole: string, fraction: Option<string>)

  /** Split at the first '.'; a second one stays in the fraction, where it is not a digit. */
  function Split(input: string): Parts {
    var s := TrimEnd(TrimStart(input));
    var p := PointOf(s);
    Parts(s[..p], if p < |s| then Some(s[p + 1..]) else None)
  }

  predicate Valid(parts: Parts, limit: nat) {
    && parts.whole != [] && |parts.whole| <= limit && Digits(parts.whole)
    && (parts.fraction.Some? ==>
        parts.fraction.value != [] && |parts.fraction.value| <= FRACTION_DIGITS && Digits(parts.fraction.value))
  }

  function FractionOf(parts: Parts): string {
    if parts.fraction.Some? then parts.fraction.value else []
  }

  function Render(whole: string, fraction: string): string {
    var w := DropLeadingZeros(whole);
    var f := DropTrailingZeros(fraction);
    (if w == [] then "0" else w) + if f == [] then [] else "." + f
  }

  /** `from_str` of an amount with at most `limit` whole digits. */
  function Parse(input: string, limit: nat): Option<string> {
    var parts := Split(input);
    if Valid(parts, limit) then Some(Render(parts.whole, FractionOf(parts))) else None
  }

  // ----- the value of a decimal string -----

  function Nat(s: string): nat
    requires Digits(s)
  {
    if s == [] then 0 else 10 * Nat(s[..|s| - 1]) + (s[|s| - 1] as int - '0' as int)
  }

  function Zeros(n: nat): (s: string)
    ensures |s| == n && Digits(s)
  {
    seq(n, _ => '0')
  }

  function Padded(f: string): string
    requires |f| <= FRACTION_DIGITS
  {
    f + Zeros(FRACTION_DIGITS - |f|)
  }

  /** The amount in units of 10^-10: all its digits, the fraction filled up with zeros, as one number. */
  function Units(parts: Parts, limit: nat): nat
    requires Valid(parts, limit)
  {
    Nat(parts.whole + Padded(FractionOf(parts)))
  }

  function Pow10(n: nat): nat {
    if n == 0 then 1 else 10 * Pow10(n - 1)
  }

  lemma {:induction false} NatConcat(x: string, y: string)
    requires Digits(x) && Digits(y)
    ensures Nat(x + y) == Nat(x) * Pow10(|y|) + Nat(y)
  {
    if y == [] { assert x + y == x; } else {
      var front := y[..|y| - 1];
      assert (x + y)[..|x + y| - 1] == x + front;
      NatConcat(x, front);
      assert Nat(x) * (10 * Pow10(|front|)) == 10 * (Nat(x) * Pow10(|front|));
    }
  }

  lemma {:induction false} NatBound(x: string, n: nat)
    requires Digits(x) && |x| <= n
    ensures Nat(x) < Pow10(n)
  {
    if n > 0 && x != [] { NatBound(x[..|x| - 1], n - 1); } else if n > 0 { NatBound(x, n - 1); }
  }

  /** Equal numbers with equally long tails have equal heads and the same tail. */
  lemma {:induction false} TailsAgree(a: string, p: string, b: string, q: string)
    requires Digits(a) && Digits(b) && Digits(p) && Digits(q) && |p| == |q|
    ensures Nat(a + p) == Nat(b + q) <==> Nat(a) == Nat(b) && p == q
  {
    if p == [] { assert a + p == a && b + q == b; } else {
      var n := |p| - 1;
      assert (a + p)[..|a| + n] == a + p[..n] && (b + q)[..|b| + n] == b + q[..n];
      TailsAgree(a, p[..n], b, q[..n]);
      assert p == p[..n] + [p[n]] && q == q[..n] + [q[n]];
    }
  }

  lemma {:induction false} LeadingZeros(s: string)
    requires Digits(s)
    ensures var d := DropLeadingZeros(s);
            Digits(d) && |d| <= |s| && Nat(d) == Nat(s) && (d != [] ==> d[0] != '0') && DropLeadingZeros(d) == d
  {
    if s != [] && s[0] == '0' {
      LeadingZeros(s[1..]);
      assert s == "0" + s[1..];
      assert "0"[..0] == [];
      NatConcat("0", s[1..]);
    }
  }

  /** Without leading zeros a number has only one spelling. */
  lemma UniqueSpelling(u: string, v: string)
    requires Digits(u) && Digits(v) && Nat(u) == Nat(v)
    requires |u| <= |v| && (v != [] ==> v[0] != '0')
    ensures u == v
  {
  }

  lemma WholesAgree(a: string, b: string)
    requires Digits(a) && Digits(b)
    ensures DropLeadingZeros(a) == DropLeadingZeros(b) <==> Nat(a) == Nat(b)
  {
    LeadingZeros(a);
    LeadingZeros(b);
    var u, v := DropLeadingZeros(a), DropLeadingZeros(b);
    if Nat(a) == Nat(b) {
      if |u| <= |v| { UniqueSpelling(u, v); } else { UniqueSpelling(v, u); }
    }
  }

  lemma {:induction false} TrailingZeros(f: string)
    ensures var d := DropTrailingZeros(f);
            |d| <= |f| && f == d + Zeros(|f| - |d|) && (d != [] ==> d[|d| - 1] != '0') && DropTrailingZeros(d) == d
  {
    if f != [] && f[|f| - 1] == '0' { TrailingZeros(f[..|f| - 1]); }
  }

  lemma {:induction false} DropsFilling(d: string, k: nat)
    requires d != [] ==> d[|d| - 1] != '0'
    ensures DropTrailingZeros(d + Zeros(k)) == d
  {
    if k == 0 { assert d + Zeros(k) == d; } else {
      assert (d + Zeros(k))[..|d| + k - 1] == d + Zeros(k - 1);
      DropsFilling(d, k - 1);
    }
  }

  lemma FractionsAgree(f: string, g: string)
    requires |f| <= FRACTION_DIGITS && |g| <= FRACTION_DIGITS
    ensures DropTrailingZeros(f) == DropTrailingZeros(g) <==> Padded(f) == Padded(g)
  {
    PaddingCanonical(f);
    PaddingCanonical(g);
  }

  lemma PaddingCanonical(f: string)
    requires |f| <= FRACTION_DIGITS
    ensures var d := DropTrailingZeros(f);
            |d| <= FRACTION_DIGITS && Padded(f) == Padded(d) && DropTrailingZeros(Padded(f)) == d
  {
    TrailingZeros(f);
    var d := DropTrailingZeros(f);
    assert Padded(f) == d + Zeros(FRACTION_DIGITS - |d|);
    DropsFilling(d, FRACTION_DIGITS - |d|);
  }

  /** The rendering shows both trimmed parts, so it determines them. */
  lemma RenderDetermines(a: string, f: string, b: string, g: string)
    requires Digits(a) && Digits(b)
    ensures Render(a, f) == Render(b, g) <==>
            DropLeadingZeros(a) == DropLeadingZeros(b) && DropTrailingZeros(f) == DropTrailingZeros(g)
  {
    LeadingZeros(a);
    LeadingZeros(b);
    RenderPoint(a, f);
    RenderPoint(b, g);
  }

  lemma RenderPoint(a: string, f: string)
    requires Digits(a)
    ensures var w := DropLeadingZeros(a); var d := DropTrailingZeros(f); var s := Render(a, f);
            && PointOf(s) == (if w == [] then 1 else |w|)
            && s[..PointOf(s)] == (if w == [] then "0" else w)
            && (if d == [] then PointOf(s) == |s| else PointOf(s) < |s| && s[PointOf(s) + 1..] == d)
  {
    LeadingZeros(a);
    var w := DropLeadingZeros(a);
    var shown := if w == [] then "0" else w;
    var s := Render(a, f);
    var d := DropTrailingZeros(f);
    assert s == shown + if d == [] then [] else "." + d;
    assert forall i | 0 <= i < |shown| :: s[i] == shown[i] && IsDigit(shown[i]);
    assert d != [] ==> s[|shown|] == '.';
  }

  // ----- results -----

  /** Two accepted inputs have the same canonical form exactly when they denote the same amount. */
  lemma CanonicalIffEqual(s: string, t: string, limit: nat)
    requires Valid(Split(s), limit) && Valid(Split(t), limit)
    ensures Parse(s, limit) == Parse(t, limit) <==> Units(Split(s), limit) == Units(Split(t), limit)
  {
    var a, b := Split(s), Split(t);
    var f, g := FractionOf(a), FractionOf(b);
    RenderDetermines(a.whole, f, b.whole, g);
    WholesAgree(a.whole, b.whole);
    FractionsAgree(f, g);
    TailsAgree(a.whole, Padded(f), b.whole, Padded(g));
  }

  /** The amount is what the digits say, and stays within the declared numeric(limit + 10, 10). */
  lemma AmountAndBound(s: string, limit: nat)
    requires Valid(Split(s), limit)
    ensures var parts := Split(s);
            && Units(parts, limit) == Nat(parts.whole) * Pow10(FRACTION_DIGITS) + Nat(Padded(FractionOf(parts)))
            && Units(parts, limit) < Pow10(limit + FRACTION_DIGITS)
  {
    var parts := Split(s);
    NatConcat(parts.whole, Padded(FractionOf(parts)));
    NatBound(parts.whole + Padded(FractionOf(parts)), limit + FRACTION_DIGITS);
  }

  /** So the two amount types stay below numeric(20, 10) and numeric(40, 10). */
  lemma NumericBounds(s: string)
    ensures Valid(Split(s), AMOUNT_DIGITS) ==> Units(Split(s), AMOUNT_DIGITS) < Pow10(20)
    ensures Valid(Split(s), CUMULATIVE_DIGITS) ==> Units(Split(s), CUMULATIVE_DIGITS) < Pow10(40)
  {
    if Valid(Split(s), AMOUNT_DIGITS) { AmountAndBound(s, AMOUNT_DIGITS); }
    if Valid(Split(s), CUMULATIVE_DIGITS) { AmountAndBound(s, CUMULATIVE_DIGITS); }
  }

  /** A canonical form is accepted again, unchanged. */
  lemma CanonicalIsStable(s: string, limit: nat)
    requires Parse(s, limit).Some?
    ensures Parse(Parse(s, limit).value, limit) == Parse(s, limit)
  {
    var parts := Split(s);
    RenderSplits(parts.whole, FractionOf(parts));
    RenderValid(parts, limit);
  }

  /** The two trimmed parts, with a lone zero for an empty whole part. */
  function Trimmed(a: string, f: string): Parts {
    var w := DropLeadingZeros(a);
    var d := DropTrailingZeros(f);
    Parts(if w == [] then "0" else w, if d == [] then None else Some(d))
  }

  lemma RenderValid(parts: Parts, limit: nat)
    requires Valid(parts, limit)
    ensures var t := Trimmed(parts.whole, FractionOf(parts));
            Valid(t, limit) && Render(t.whole, FractionOf(t)) == Render(parts.whole, FractionOf(parts))
  {
    var f := FractionOf(parts);
    LeadingZeros(parts.whole);
    TrailingZeros(f);
    assert forall i | 0 <= i < |DropTrailingZeros(f)| :: DropTrailingZeros(f)[i] == f[i];
    assert DropLeadingZeros("0") == [];
  }

  /** Reading a rendering back gives the trimmed parts. */
  lemma RenderSplits(a: string, f: string)
    requires Digits(a) && Digits(f)
    ensures Split(Render(a, f)) == Trimmed(a, f)
  {
    RenderEnds(a, f);
    NothingToTrim(Render(a, f));
    RenderPoint(a, f);
  }

  lemma RenderEnds(a: string, f: string)
    requires Digits(a) && Digits(f)
    ensures var c := Render(a, f); c != [] && IsDigit(c[0]) && IsDigit(c[|c| - 1])
  {
    LeadingZeros(a);
    TrailingZeros(f);
    var d := DropTrailingZeros(f);
    if d != [] { assert d[|d| - 1] == f[|d| - 1]; }
  }

  lemma NothingToTrim(c: string)
    requires c != [] && IsDigit(c[0]) && IsDigit(c[|c| - 1])
    ensures TrimEnd(TrimStart(c)) == c
  {
  }

  // ----- which strings are accepted -----

  predicate Blank(s: string) {
    forall i | 0 <= i < |s| :: IsSpace(s[i])
  }

  /** White space, digits, an optional point with digits after it, white space. */
  predicate Reads(s: string, before: string, whole: string, tail: string, after: string, limit: nat) {
    && s == before + whole + tail + after && Blank(before) && Blank(after)
    && Digits(whole) && 1 <= |whole| <= limit
    && (tail == [] || (tail[0] == '.' && 2 <= |tail| <= FRACTION_DIGITS + 1 && Digits(tail[1..])))
  }

  /** Exactly such strings are accepted. */
  lemma AcceptedIffReads(s: string, limit: nat)
    ensures Parse(s, limit).Some? <==>
            exists before, whole, tail, after :: Reads(s, before, whole, tail, after, limit)
  {
    if Parse(s, limit).Some? {
      var before, whole, tail, after := ReadBack(s, limit);
    } else if exists before, whole, tail, after :: Reads(s, before, whole, tail, after, limit) {
      var before, whole, tail, after :| Reads(s, before, whole, tail, after, limit);
      SplitReads(s, before, whole, tail, after, limit);
      assert false;
    }
  }

  lemma SplitReads(s: string, before: string, whole: string, tail: string, after: string, limit: nat)
    requires Reads(s, before, whole, tail, after, limit)
    ensures Split(s) == Parts(whole, if tail == [] then None else Some(tail[1..])) && Valid(Split(s), limit)
  {
    var shown := whole + tail;
    assert s == before + (shown + after) && IsDigit(shown[0]) && IsDigit(shown[|shown| - 1]);
    TrimStartDrops(before, shown + after);
    TrimEndDrops(shown, after);
    assert forall i | 0 <= i < |whole| :: shown[i] == whole[i] && whole[i] != '.';
    assert tail != [] ==> shown[|whole|] == '.';
    assert shown[..|whole|] == whole && (tail != [] ==> shown[|whole| + 1..] == tail[1..]);
  }

  lemma {:induction false} TrimStartDrops(before: string, s: string)
    requires Blank(before) && s != [] && !IsSpace(s[0])
    ensures TrimStart(before + s) == s
  {
    if before == [] { assert before + s == s; } else {
      assert (before + s)[1..] == before[1..] + s;
      TrimStartDrops(before[1..], s);
    }
  }

  lemma {:induction false} TrimEndDrops(s: string, after: string)
    requires Blank(after) && s != [] && !IsSpace(s[|s| - 1])
    ensures TrimEnd(s + after) == s
  {
    if after == [] { assert s + after == s; } else {
      assert (s + after)[..|s + after| - 1] == s + after[..|after| - 1];
      TrimEndDrops(s, after[..|after| - 1]);
    }
  }

  lemma ReadBack(s: string, limit: nat) returns (before: string, whole: string, tail: string, after: string)
    requires Valid(Split(s), limit)
    ensures Reads(s, before, whole, tail, after, limit)
  {
    before := TrimmedStart(s);
    after := TrimmedEnd(TrimStart(s));
    whole, tail := CutAtPoint(TrimEnd(TrimStart(s)));
    Reassociate(before, whole, tail, after);
  }

  lemma Reassociate(a: string, b: string, c: string, d: string)
    ensures a + ((b + c) + d) == a + b + c + d
  {
  }

  lemma CutAtPoint(shown: string) returns (whole: string, tail: string)
    ensures shown == whole + tail && whole == shown[..PointOf(shown)]
    ensures (tail == [] <==> PointOf(shown) == |shown|)
    ensures tail != [] ==> tail[0] == '.' && tail[1..] == shown[PointOf(shown) + 1..]
  {
    var p := PointOf(shown);
    whole, tail := shown[..p], shown[p..];
  }

  lemma {:induction false} TrimmedStart(s: string) returns (before: string)
    ensures Blank(before) && s == before + TrimStart(s)
  {
    before := [];
    if s != [] && IsSpace(s[0]) {
      var more := TrimmedStart(s[1..]);
      before := [s[0]] + more;
    }
  }

  lemma {:induction false} TrimmedEnd(s: string) returns (after: string)
    ensures Blank(after) && s == TrimEnd(s) + after
  {
    after := [];
    if s != [] && IsSpace(s[|s| - 1]) {
      var more := TrimmedEnd(s[..|s| - 1]);
      after := more + [s[|s| - 1]];
    }
  }

  /** The canonical form denotes the same amount and is the shortest way to write it. */
  lemma CanonicalShape(s: string, limit: nat)
    requires Parse(s, limit).Some?
    ensures var c := Split(Parse(s, limit).value);
            && Valid(c, limit) && Units(c, limit) == Units(Split(s), limit)
            && (c.whole == "0" || c.whole[0] != '0')
            && (c.fraction.Some? ==> c.fraction.value[|c.fraction.value| - 1] != '0')
            && Parse(s, limit).value == c.whole + if c.fraction.Some? then "." + c.fraction.value else []
  {
    var parts := Split(s);
    CanonicalIsStable(s, limit);
    CanonicalIffEqual(Parse(s, limit).value, s, limit);
    RenderSplits(parts.whole, FractionOf(parts));
    LeadingZeros(parts.whole);
    TrailingZeros(FractionOf(parts));
  }
}

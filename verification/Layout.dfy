/**
 * The account group layout of the front end: how many labels fit into two rows, the rest being
 * folded into an overflow marker.  Widths are reals; the gap between neighbours is fixed.
 */
module Layout {
  import opened Wrappers

  const GAP := 6.0

  function Min(a: real, b: real): (r: real)
    ensures (r == a || r == b) && r <= a && r <= b
  {
    if a < b then a else b
  }

  /** Width of labels `lo` to `hi` side by side. */
  function Row(widths: seq<real>, lo: nat, hi: nat): real
    requires lo <= hi <= |widths|
  {
    if lo == hi then 0.0 else Row(widths, lo, hi - 1) + (if lo < hi - 1 then GAP else 0.0) + widths[hi - 1]
  }

  ghost predicate Split(widths: seq<real>, available: real, k: nat) {
    k <= |widths| && Row(widths, 0, k) <= available && Row(widths, k, |widths|) <= available
  }

  /** Some way to break the labels into a first and a second row lets both rows fit. */
  ghost predicate TwoRows(widths: seq<real>, available: real) {
    exists k :: Split(widths, available, k)
  }

  ghost predicate Positive(widths: seq<real>) {
    forall i | 0 <= i < |widths| :: 0.0 < widths[i]
  }

  /** Each label is wider than nothing and no wider than a row. */
  ghost predicate Usable(widths: seq<real>, available: real) {
    forall i | 0 <= i < |widths| :: 0.0 < widths[i] <= available
  }

  // ----- the greedy pass -----

  datatype Filling = Filling(rows: nat, used: real)

  /** Rows begun and width used in the last one, after the first `n` labels. */
  function Fill(widths: seq<real>, available: real, n: nat): Filling
    requires n <= |widths|
  {
    if n == 0 then Filling(1, 0.0) else
      var f := Fill(widths, available, n - 1);
      if f.used > 0.0 && f.used + GAP + widths[n - 1] > available then Filling(f.rows + 1, widths[n - 1])
      else Filling(f.rows, f.used + (if f.used > 0.0 then GAP else 0.0) + widths[n - 1])
  }

  predicate Fits(widths: seq<real>, available: real) {
    Fill(widths, available, |widths|).rows <= 2
  }

  lemma {:induction false} RowsGrow(widths: seq<real>, available: real, n: nat, m: nat)
    requires n <= m <= |widths|
    ensures Fill(widths, available, n).rows <= Fill(widths, available, m).rows
  {
    if n < m { RowsGrow(widths, available, n, m - 1); }
  }

  method FitsTwoRows(widths: seq<real>, available: real) returns (fits: bool)
    ensures fits == Fits(widths, available)
    ensures Positive(widths) && available >= 0.0 ==> (TwoRows(widths, available) <==> fits && Usable(widths, available))
  {
    var rows, used := 1, 0.0;
    var i := 0;
    if Positive(widths) && available >= 0.0 { GreedyIsOptimal(widths, available); }
    while i < |widths|
      invariant 0 <= i <= |widths|
      invariant Filling(rows, used) == Fill(widths, available, i) && rows <= 2
    {
      var width := widths[i];
      i := i + 1;
      if used > 0.0 && used + GAP + width > available {
        rows := rows + 1;
        used := 0.0;
      }
      if rows > 2 {
        RowsGrow(widths, available, i, |widths|);
        return false;
      }
      used := used + (if used > 0.0 then GAP else 0.0) + width;
    }
    return true;
  }

  // ----- greedy is optimal -----

  lemma {:induction false} RowMonotone(widths: seq<real>, lo: nat, a: nat, b: nat, hi: nat)
    requires Positive(widths) && lo <= a <= b <= hi <= |widths|
    ensures 0.0 <= Row(widths, a, b) <= Row(widths, lo, hi)
    ensures a < b ==> Row(widths, a, b) > 0.0
    decreases hi - lo
  {
    if b < hi { RowMonotone(widths, lo, a, b, hi - 1); }
    else if lo < hi {
      if a == hi { RowMonotone(widths, lo, hi - 1, hi - 1, hi - 1); }
      else { RowMonotone(widths, lo, a, hi - 1, hi - 1); }
    }
  }

  /** The greedy pass after `n` labels: where its last row starts, and why no row before it could be longer. */
  lemma {:induction false} GreedyRows(widths: seq<real>, available: real, n: nat) returns (start: nat)
    requires Usable(widths, available) && n <= |widths| && available >= 0.0
    ensures var f := Fill(widths, available, n);
            && start <= n && f.used == Row(widths, start, n) <= available
            && (f.rows == 1 <==> start == 0) && f.rows >= 1
            && (f.rows == 2 ==> start < n && Row(widths, 0, start) <= available < Row(widths, 0, start + 1))
            && (f.rows >= 3 ==> !TwoRows(widths, available))
  {
    if n == 0 { return 0; }
    start := GreedyRows(widths, available, n - 1);
    var f := Fill(widths, available, n - 1);
    RowMonotone(widths, start, start, n - 1, n - 1);
    if f.used > 0.0 && f.used + GAP + widths[n - 1] > available {
      if f.rows == 2 { NoSplit(widths, available, start, n); }
      start := n - 1;
    }
  }

  /** The first row cannot take label `start`, and labels `start` to `n` do not fit in the second. */
  lemma NoSplit(widths: seq<real>, available: real, start: nat, n: nat)
    requires Positive(widths) && start < n <= |widths|
    requires Row(widths, 0, start + 1) > available && Row(widths, start, n) > available
    ensures !TwoRows(widths, available)
  {
    forall k: nat ensures !Split(widths, available, k) {
      if start < k <= |widths| { RowMonotone(widths, 0, 0, start + 1, k); }
      else if k <= start { RowMonotone(widths, k, start, n, |widths|); }
    }
  }

  /**
   * The greedy pass answers whether any split fits, except that it never looks at a label wider than
   * a whole row: labels fit two rows exactly when the pass says so and none of them is that wide.
   */
  lemma GreedyIsOptimal(widths: seq<real>, available: real)
    requires Positive(widths) && available >= 0.0
    ensures TwoRows(widths, available) <==> Fits(widths, available) && Usable(widths, available)
  {
    if Usable(widths, available) {
      var start := GreedyRows(widths, available, |widths|);
      if Fill(widths, available, |widths|).rows == 1 { assert Split(widths, available, |widths|); }
      if Fill(widths, available, |widths|).rows == 2 { assert Split(widths, available, start); }
    } else {
      TooWide(widths, available);
    }
  }

  lemma TooWide(widths: seq<real>, available: real)
    requires Positive(widths) && !Usable(widths, available)
    ensures !TwoRows(widths, available)
  {
    var i :| 0 <= i < |widths| && widths[i] > available;
    forall k: nat ensures !Split(widths, available, k) {
      if i < k <= |widths| { RowMonotone(widths, 0, i, i + 1, k); }
      else if k <= i { RowMonotone(widths, k, i, i + 1, |widths|); }
      assert Row(widths, i, i + 1) == Row(widths, i, i) + widths[i];
    }
  }

  /** A label alone in its row is never compared with the row. */
  lemma OverwideLabelPasses(available: real)
    requires available > 0.0
    ensures Fits([available + 1.0], available) && !TwoRows([available + 1.0], available)
  {
    GreedyIsOptimal([available + 1.0], available);
    assert [available + 1.0][0] > available;
  }

  // ----- the layout -----

  function Clamp(widths: seq<real>, limit: real): seq<real> {
    seq(|widths|, i requires 0 <= i < |widths| => Min(widths[i], limit))
  }

  function OverflowLimit(available: real, overflowWidth: real): real {
    if available - overflowWidth - GAP > 1.0 then available - overflowWidth - GAP else 1.0
  }

  /** Unless that is less than one pixel, a label may be as wide as still leaves the marker room in its row. */
  lemma LimitLeavesRoom(available: real, overflowWidth: real, width: real)
    ensures var limit := OverflowLimit(available, overflowWidth);
            && limit >= 1.0
            && (limit > 1.0 ==> (width <= limit <==> Row([width, overflowWidth], 0, 2) <= available))
            && (limit == 1.0 ==> Row([1.0, overflowWidth], 0, 2) >= available)
  {
    assert Row([width, overflowWidth], 0, 1) == Row([width, overflowWidth], 0, 0) + width;
    assert Row([1.0, overflowWidth], 0, 1) == Row([1.0, overflowWidth], 0, 0) + 1.0;
  }

  /** Clamping shortens the labels that are wider than the limit to it and leaves the others alone. */
  lemma ClampedWidths(widths: seq<real>, limit: real, i: nat)
    requires i < |widths|
    ensures |Clamp(widths, limit)| == |widths|
    ensures Clamp(widths, limit)[i] <= limit
    ensures Clamp(widths, limit)[i] == widths[i] <==> widths[i] <= limit
    ensures widths[i] > limit ==> Clamp(widths, limit)[i] == limit
  {
  }

  /** The first `k` labels, clamped, followed by the overflow marker. */
  function WithMarker(widths: seq<real>, limit: real, k: nat, overflowWidth: real): seq<real>
    requires k <= |widths|
  {
    Clamp(widths[..k], limit) + [overflowWidth]
  }

  method AccountGroupLayout(widths: seq<real>, available: real, overflowWidth: real)
    returns (count: nat, maxWidth: Option<real>)
    ensures available <= 0.0 ==> maxWidth == None && count == if |widths| < 2 then |widths| else 2
    ensures available > 0.0 && Fits(Clamp(widths, available), available) ==>
            count == |widths| && maxWidth == Some(available)
    ensures available > 0.0 && !Fits(Clamp(widths, available), available) ==>
              maxWidth == Some(OverflowLimit(available, overflowWidth)) && count <= |widths|
              && StopsAt(widths, available, overflowWidth, count)
    ensures available > 0.0 && Positive(widths) ==>
              (TwoRows(Clamp(widths, available), available) <==> Fits(Clamp(widths, available), available))
    ensures available > 0.0 && Positive(widths) && overflowWidth > 0.0
            && !TwoRows(Clamp(widths, available), available) ==>
              LargestPrefix(widths, available, overflowWidth, count)
  {
    if available <= 0.0 {
      return if |widths| < 2 then |widths| else 2, None;
    }
    var whole := FitsTwoRows(Clamp(widths, available), available);
    assert Positive(widths) ==> Usable(Clamp(widths, available), available);
    if whole { return |widths|, Some(available); }
    var limit := OverflowLimit(available, overflowWidth);
    var fitted: seq<real> := [];
    count := 0;
    while count < |widths|
      invariant 0 <= count <= |widths|
      invariant fitted == Clamp(widths[..count], limit)
      invariant forall k | 1 <= k <= count :: Fits(WithMarker(widths, limit, k, overflowWidth), available)
    {
      fitted := fitted + [Min(widths[count], limit)];
      assert fitted == Clamp(widths[..count + 1], limit);
      var fits := FitsTwoRows(fitted + [overflowWidth], available);
      if !fits { break; }
      count := count + 1;
    }
    maxWidth := Some(limit);
    if Positive(widths) && overflowWidth > 0.0 { CountIsLargest(widths, available, overflowWidth, count); }
  }

  /** The loop's answer: the greedy pass accepts every prefix up to `count` and refuses the next. */
  ghost predicate StopsAt(widths: seq<real>, available: real, overflowWidth: real, count: nat)
    requires count <= |widths|
  {
    var limit := OverflowLimit(available, overflowWidth);
    && (forall k | 1 <= k <= count :: Fits(WithMarker(widths, limit, k, overflowWidth), available))
    && (count < |widths| ==> !Fits(WithMarker(widths, limit, count + 1, overflowWidth), available))
  }

  /**
   * No longer prefix could be shown beside the marker by any arrangement, and every prefix up to
   * `count` can, unless the marker or a clamped label is wider than a row by itself.
   */
  ghost predicate LargestPrefix(widths: seq<real>, available: real, overflowWidth: real, count: nat) {
    forall k | 0 <= k <= |widths| ::
      var shown := WithMarker(widths, OverflowLimit(available, overflowWidth), k, overflowWidth);
      TwoRows(shown, available) <==> k <= count && Usable(shown, available)
  }

  lemma CountIsLargest(widths: seq<real>, available: real, overflowWidth: real, count: nat)
    requires Positive(widths) && overflowWidth > 0.0 && available > 0.0 && count <= |widths|
    requires StopsAt(widths, available, overflowWidth, count)
    ensures LargestPrefix(widths, available, overflowWidth, count)
  {
    var limit := OverflowLimit(available, overflowWidth);
    forall k | 0 <= k <= |widths|
      ensures var shown := WithMarker(widths, limit, k, overflowWidth);
              TwoRows(shown, available) <==> k <= count && Usable(shown, available)
    {
      var shown := WithMarker(widths, limit, k, overflowWidth);
      GreedyIsOptimal(shown, available);
      if k == 0 {
        assert Fill(shown, available, 1) == Filling(1, Fill(shown, available, 1).used);
      } else if k > count {
        GreedyIsOptimal(WithMarker(widths, limit, count + 1, overflowWidth), available);
        NeverFitsAgain(widths, available, overflowWidth, count + 1, k);
      }
    }
  }

  /** The labels are clamped but the marker is not: three labels fold to one beside a marker four rows wide. */
  lemma OverwideMarkerShown(count: nat)
    requires count <= 3 && StopsAt([10.0, 10.0, 10.0], 5.0, 20.0, count)
    ensures !Fits(Clamp([10.0, 10.0, 10.0], 5.0), 5.0) && count == 1
    ensures !TwoRows(WithMarker([10.0, 10.0, 10.0], OverflowLimit(5.0, 20.0), count, 20.0), 5.0)
  {
    var widths := [10.0, 10.0, 10.0];
    assert Clamp(widths, 5.0) == [5.0, 5.0, 5.0];
    assert widths[..1] == [10.0] && widths[..2] == [10.0, 10.0];
    var one, two := WithMarker(widths, 1.0, 1, 20.0), WithMarker(widths, 1.0, 2, 20.0);
    assert OverflowLimit(5.0, 20.0) == 1.0 && one == [1.0, 20.0] && two == [1.0, 1.0, 20.0];
    assert Fill(one, 5.0, 1) == Filling(1, 1.0);
    assert Fill(one, 5.0, 2) == Filling(2, 20.0);
    assert two[0] == two[1] == 1.0 && two[2] == 20.0;
    assert Fill(two, 5.0, 1) == Filling(1, 1.0);
    assert Fill(two, 5.0, 2) == Filling(2, 1.0);
    assert Fill(two, 5.0, 3) == Filling(3, 20.0);
    assert Fill([5.0, 5.0, 5.0], 5.0, 1) == Filling(1, 5.0);
    assert Fill([5.0, 5.0, 5.0], 5.0, 2) == Filling(2, 5.0);
    assert Fits(one, 5.0) && !Fits(two, 5.0);
    GreedyIsOptimal(one, 5.0);
    assert one[1] > 5.0;
  }

  /**
   * For the exported function: what it shows beside the marker fits exactly when the marker is no
   * wider than the row and, in a row narrower than the least clamp, the first label is not either.
   */
  lemma ShownFitsIff(widths: seq<real>, available: real, overflowWidth: real, count: nat)
    requires Positive(widths) && overflowWidth > 0.0 && available > 0.0 && widths != [] && count <= |widths|
    requires StopsAt(widths, available, overflowWidth, count)
    ensures TwoRows(WithMarker(widths, OverflowLimit(available, overflowWidth), count, overflowWidth), available) <==>
            overflowWidth <= available && (available >= 1.0 || widths[0] <= available)
  {
    var limit := OverflowLimit(available, overflowWidth);
    var shown := WithMarker(widths, limit, count, overflowWidth);
    CountIsLargest(widths, available, overflowWidth, count);
    assert TwoRows(shown, available) <==> Usable(shown, available);
    OneLabelFits(widths, available, overflowWidth);
    assert shown[count] == overflowWidth && shown[0] == Min(widths[0], limit);
    assert count > 1 ==> Fits(WithMarker(widths, limit, 2, overflowWidth), available);
    if available < 1.0 && count > 1 { NarrowRow(widths, available, overflowWidth); }
    assert Usable(shown, available) ==> shown[0] <= available && shown[count] <= available;
  }

  lemma OneLabelFits(widths: seq<real>, available: real, overflowWidth: real)
    requires widths != []
    ensures Fits(WithMarker(widths, OverflowLimit(available, overflowWidth), 1, overflowWidth), available)
  {
    var one := WithMarker(widths, OverflowLimit(available, overflowWidth), 1, overflowWidth);
    assert Fill(one, available, 1).rows == 1;
  }

  /** A row narrower than the gap holds one label, so two labels and the marker need three rows. */
  lemma NarrowRow(widths: seq<real>, available: real, overflowWidth: real)
    requires Positive(widths) && overflowWidth > 0.0 && available < 1.0 && |widths| >= 2
    ensures !Fits(WithMarker(widths, OverflowLimit(available, overflowWidth), 2, overflowWidth), available)
  {
    var two := WithMarker(widths, OverflowLimit(available, overflowWidth), 2, overflowWidth);
    assert two[0] > 0.0 && two[1] > 0.0 && two[2] > 0.0;
    assert Fill(two, available, 1) == Filling(1, two[0]);
    assert Fill(two, available, 2) == Filling(2, two[1]);
    assert Fill(two, available, 3) == Filling(3, two[2]);
  }

  /** The other way to fail: the marker fits, but a label is shown wider than a row narrower than one pixel. */
  lemma NarrowRowShown(count: nat)
    requires count <= 3 && StopsAt([10.0, 10.0, 10.0], 0.5, 0.25, count)
    ensures !Fits(Clamp([10.0, 10.0, 10.0], 0.5), 0.5) && count == 1
    ensures !TwoRows(WithMarker([10.0, 10.0, 10.0], OverflowLimit(0.5, 0.25), count, 0.25), 0.5)
  {
    var widths := [10.0, 10.0, 10.0];
    assert Clamp(widths, 0.5) == [0.5, 0.5, 0.5];
    assert Fill([0.5, 0.5, 0.5], 0.5, 1) == Filling(1, 0.5);
    assert Fill([0.5, 0.5, 0.5], 0.5, 2) == Filling(2, 0.5);
    OneLabelFits(widths, 0.5, 0.25);
    NarrowRow(widths, 0.5, 0.25);
    ShownFitsIff(widths, 0.5, 0.25, count);
  }

  lemma {:induction false} NeverFitsAgain(widths: seq<real>, available: real, overflowWidth: real, n: nat, k: nat)
    requires Positive(widths) && overflowWidth > 0.0 && available > 0.0 && n <= k <= |widths|
    requires !TwoRows(WithMarker(widths, OverflowLimit(available, overflowWidth), n, overflowWidth), available)
    ensures !TwoRows(WithMarker(widths, OverflowLimit(available, overflowWidth), k, overflowWidth), available)
  {
    if n < k && TwoRows(WithMarker(widths, OverflowLimit(available, overflowWidth), k, overflowWidth), available) {
      MarkerMovesUp(widths, OverflowLimit(available, overflowWidth), k - 1, overflowWidth, available);
      NeverFitsAgain(widths, available, overflowWidth, n, k - 1);
    }
  }

  /** Leaving out the label before the marker never makes a row longer. */
  lemma MarkerMovesUp(widths: seq<real>, limit: real, k: nat, overflowWidth: real, available: real)
    requires k < |widths| && available >= 0.0
    requires Positive(WithMarker(widths, limit, k + 1, overflowWidth))
    requires TwoRows(WithMarker(widths, limit, k + 1, overflowWidth), available)
    ensures TwoRows(WithMarker(widths, limit, k, overflowWidth), available)
  {
    var long, short := WithMarker(widths, limit, k + 1, overflowWidth), WithMarker(widths, limit, k, overflowWidth);
    var m: nat :| Split(long, available, m);
    var n := if m <= k then m else m - 1;
    SameRow(long, short, 0, if n <= k then n else k, k);
    SameRow(long, short, if n <= k then n else k, k, k);
    RowMonotone(long, if n <= k then n else k, if n <= k then n else k, k, k + 1);
    RowMonotone(long, 0, 0, k, k + 1);
    assert Row(short, n, k + 1) <= Row(long, m, k + 2) by {
      if n <= k { assert long[k + 1] == short[k] == overflowWidth && long[k] > 0.0; }
    }
    assert Split(short, available, n);
  }

  lemma {:induction false} SameRow(a: seq<real>, b: seq<real>, lo: nat, hi: nat, n: nat)
    requires lo <= hi <= n <= |a| && n <= |b| && a[..n] == b[..n]
    ensures Row(a, lo, hi) == Row(b, lo, hi)
  {
    if lo < hi {
      SameRow(a, b, lo, hi - 1, n);
      assert a[..n][hi - 1] == b[..n][hi - 1];
    }
  }
}

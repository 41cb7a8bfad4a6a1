/** The --date option of the get and list commands: a day `YYYY-MM-DD` or a range
    `YYYY-MM-DD:YYYY-MM-DD`, matched inclusively against each backup's day. */
module DateRange {
  import opened Text
  import opened Catalog

  datatype Range = Range(lower: string, upper: string)

  /** The bounds of a --date value: the first two colon-separated pieces, swapped when the
      first sorts after the second; a value without a colon is both bounds. */
  function ParseRange(date: string): (r: Range)
    ensures AtMost(r.lower, r.upper)
    ensures var d := Split(date, ':');
      if |d| > 1 then {r.lower, r.upper} == {d[0], d[1]} else r == Range(d[0], d[0])
  {
    var dates := Split(date, ':');
    var lower := dates[0];
    if |dates| > 1 then
      var upper := dates[1];
      LessTotal(lower, upper);
      if Less(upper, lower) then Range(upper, lower) else Range(lower, upper)
    else
      Range(lower, lower)
  }

  /** The bounds as the get and list commands compute them, swapping through a temporary. */
  method Bounds(date: string) returns (r: Range)
    ensures r == ParseRange(date)
  {
    var dates := Split(date, ':');
    var lower := dates[0];
    var upper;
    if |dates| > 1 {
      upper := dates[1];
      if Less(upper, lower) {
        var swap := lower;
        lower := upper;
        upper := swap;
      }
    } else {
      upper := lower;
    }
    r := Range(lower, upper);
  }

  /** A day inside the bounds, both included. */
  predicate InRange(day: string, r: Range) {
    AtMost(r.lower, day) && AtMost(day, r.upper)
  }

  /** The records whose day is inside the bounds, in their original order. */
  function WithinRange(bs: seq<Backup>, r: Range): (kept: seq<Backup>)
    ensures forall b :: b in kept <==> b in bs && InRange(b.day, r)
    decreases |bs|
  {
    if bs == [] then []
    else
      var n := |bs| - 1;
      var p := WithinRange(bs[..n], r);
      assert bs == bs[..n] + [bs[n]];
      if InRange(bs[n].day, r) then p + [bs[n]] else p
  }

  /** Filtering by day keeps every copy of an in-range record and no copy of any other. */
  lemma {:induction false} WithinRangeCounts(bs: seq<Backup>, r: Range)
    ensures forall b :: multiset(WithinRange(bs, r))[b] == if InRange(b.day, r) then multiset(bs)[b] else 0
    decreases |bs|
  {
    if bs != [] {
      var n := |bs| - 1;
      WithinRangeCounts(bs[..n], r);
      assert bs == bs[..n] + [bs[n]];
      assert multiset(bs) == multiset(bs[..n]) + multiset{bs[n]};
    }
  }

  /** `xs` is `ys` with some elements left out and the rest in their order. */
  predicate SubseqOf<T(==)>(xs: seq<T>, ys: seq<T>)
    decreases |ys|
  {
    if ys == [] then xs == []
    else
      (xs != [] && xs[|xs| - 1] == ys[|ys| - 1] && SubseqOf(xs[..|xs| - 1], ys[..|ys| - 1]))
      || SubseqOf(xs, ys[..|ys| - 1])
  }

  /** Filtering by day keeps the records' order. */
  lemma {:induction false} WithinRangeKeepsOrder(bs: seq<Backup>, r: Range)
    ensures SubseqOf(WithinRange(bs, r), bs)
    decreases |bs|
  {
    if bs != [] {
      var n := |bs| - 1;
      WithinRangeKeepsOrder(bs[..n], r);
      var p := WithinRange(bs[..n], r);
      if InRange(bs[n].day, r) {
        assert (p + [bs[n]])[..|p|] == p;
      }
    }
  }

  /** `A:B` and `B:A` select the same days. */
  lemma RangeOrderIndependent(a: string, b: string)
    requires ':' !in a && ':' !in b
    ensures ParseRange(a + ":" + b) == ParseRange(b + ":" + a)
  {
    SplitWithoutDelimiter(b, ':');
    SplitWithoutDelimiter(a, ':');
    SplitAfterPiece(a, ':', b);
    SplitAfterPiece(b, ':', a);
    assert Split(a + ":" + b, ':') == [a, b];
    assert Split(b + ":" + a, ':') == [b, a];
    LessTotal(a, b);
    LessAsymmetric(a, b);
  }

  /** A single day D behaves as D:D, and selects exactly that day. */
  lemma SingleDate(d: string)
    requires ':' !in d
    ensures ParseRange(d) == ParseRange(d + ":" + d) == Range(d, d)
    ensures forall day :: InRange(day, ParseRange(d)) <==> day == d
  {
    SplitWithoutDelimiter(d, ':');
    SplitAfterPiece(d, ':', d);
    assert Split(d + ":" + d, ':') == [d, d];
    forall day ensures InRange(day, Range(d, d)) <==> day == d {
      LessAsymmetric(d, day);
    }
  }
}

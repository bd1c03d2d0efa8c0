/** The diagnostics registry: a rolling window of durations with its percentiles, and the text key
    under which a set of labels is kept. */
module Metrics {
  import opened Options
  import Text

  // ---- Rolling window --------------------------------------------------------------------

  const MAX_SAMPLES: nat := 512

  /** The last so many of a sequence. */
  function Last(s: seq<int>, n: nat): seq<int> {
    if n <= |s| then s[|s| - n..] else s
  }

  /** The window in order of age, oldest first. */
  function Unrolled(values: seq<int>, next: nat): seq<int>
    requires next <= |values|
  {
    values[next..] + values[..next]
  }

  /** Overwriting the oldest value drops it and adds the new one as the youngest. */
  lemma Overwritten(values: seq<int>, next: nat, x: int)
    requires next < |values|
    ensures var turned := if next + 1 == |values| then 0 else next + 1;
      Unrolled(values[next := x], turned) == Unrolled(values, next)[1..] + [x]
  {
  }

  lemma Appended(values: seq<int>, x: int)
    ensures Unrolled(values, 0) == values && Unrolled(values + [x], 0) == values + [x]
  {
  }

  lemma Turned(next: nat)
    requires next < MAX_SAMPLES
    ensures (next + 1) % MAX_SAMPLES == if next + 1 == MAX_SAMPLES then 0 else next + 1
  {
  }

  lemma LastOfMore(s: seq<int>, n: nat, x: int)
    requires n > 0
    ensures Last(s + [x], n) == if |s| < n then s + [x] else Last(s, n)[1..] + [x]
  {
  }

  class DurationWindow {
    var values: seq<int>
    var next: nat
    /** Every duration observed so far. */
    ghost var observed: seq<int>

    /** The window holds exactly the last observations, as many as there are up to the limit. */
    ghost predicate Valid()
      reads this
    {
      && |values| <= MAX_SAMPLES && next <= |values| && (next == |values| ==> next == 0)
      && (|values| < MAX_SAMPLES ==> next == 0)
      && Unrolled(values, next) == Last(observed, MAX_SAMPLES)
    }

    constructor ()
      ensures Valid() && observed == []
    {
      values, next, observed := [], 0, [];
    }

    method Observe(nanoseconds: int)
      requires Valid()
      modifies this
      ensures Valid()
      ensures observed == if nanoseconds <= 0 then old(observed) else old(observed) + [nanoseconds]
    {
      if nanoseconds <= 0 {
        return;
      }
      LastOfMore(observed, MAX_SAMPLES, nanoseconds);
      assert |values| == |Last(observed, MAX_SAMPLES)|;
      observed := observed + [nanoseconds];
      if |values| < MAX_SAMPLES {
        Appended(values, nanoseconds);
        values := values + [nanoseconds];
      } else {
        Overwritten(values, next, nanoseconds);
        Turned(next);
        values := values[next := nanoseconds];
        next := (next + 1) % MAX_SAMPLES;
      }
    }

    /** The window's part of a snapshot; none before the first observation. */
    method Summarize(product: real -> real, sum: real -> real) returns (summary: Option<Summary>)
      requires Valid() && Rounding(product) && Rounding(sum)
      ensures summary.None? <==> observed == []
      ensures summary.Some? ==> Describes(summary.value, Last(observed, MAX_SAMPLES))
    {
      assert |values| == |Last(observed, MAX_SAMPLES)|;
      if |values| == 0 {
        return None;
      }
      SummaryDescribes(values, product, sum);
      summary := Some(Summarized(Sort(values), product, sum));
      DescribesRotation(summary.value, values, next);
    }
  }

  /** The window as a multiset is that of the last observations, whatever its rotation. */
  lemma SameSamples(values: seq<int>, next: nat)
    requires next <= |values|
    ensures multiset(Unrolled(values, next)) == multiset(values)
  {
    assert values == values[..next] + values[next..];
  }

  // ---- Percentiles -----------------------------------------------------------------------

  ghost predicate Ascending(s: seq<int>) {
    forall i, j :: 0 <= i <= j < |s| ==> s[i] <= s[j]
  }

  function Whole(k: nat): real {
    k as real
  }

  /** More than half the distance of two neighbouring double precision numbers, up to the size of
      the window. */
  const LOSS: real := 0.000_000_000_001

  /** How floating point rounds: any way that keeps the order, leaves the whole and half numbers of
      the window's size alone, and loses less than `LOSS`. Exact arithmetic is one such way, so a
      fused multiply and add, which skips the inner rounding, is covered. */
  ghost predicate Rounding(fl: real -> real) {
    && (forall x, y :: x <= y ==> fl(x) <= fl(y))
    && (forall k: nat :: k <= MAX_SAMPLES ==> fl(Whole(k)) == Whole(k) && fl(Whole(k) + 0.5) == Whole(k) + 0.5)
    && (forall x :: 0.0 <= x <= Whole(MAX_SAMPLES) ==> -LOSS <= fl(x) - x <= LOSS)
  }

  /** So many times a number, a product of which nothing but sums is asked. */
  function Times(n: nat, p: real): real {
    if n == 0 then 0.0 else Times(n - 1, p) + p
  }

  lemma OneMoreTime(m: real, p: real)
    ensures m * p + p == (m + 1.0) * p
  {
  }

  lemma {:induction false} TimesIsProduct(n: nat, p: real)
    ensures Times(n, p) == n as real * p
  {
    if n > 0 {
      var m := (n - 1) as real;
      TimesIsProduct(n - 1, p);
      OneMoreTime(m, p);
      assert n as real == m + 1.0;
    }
  }

  lemma {:induction false} TimesGrows(n: nat, p: real, q: real)
    requires p <= q
    ensures Times(n, p) <= Times(n, q)
  {
    if n > 0 {
      TimesGrows(n - 1, p, q);
    }
  }

  lemma {:induction false} TimesInRange(n: nat, p: real)
    requires 0.0 <= p <= 1.0
    ensures 0.0 <= Times(n, p) <= n as real
  {
    if n > 0 {
      TimesInRange(n - 1, p);
    }
  }

  /** What is lost on a number is lost so many times. */
  lemma {:induction false} TimesIsNear(n: nat, p: real, q: real, e: real)
    requires -e <= q - p <= e
    ensures -Times(n, e) <= Times(n, q) - Times(n, p) <= Times(n, e)
  {
    if n > 0 {
      TimesIsNear(n - 1, p, q, e);
    }
  }

  /** To the nearest index: the product is rounded, then the sum, and the fraction is dropped. */
  function Rounded(share: real, product: real -> real, sum: real -> real): int {
    sum(product(share) + 0.5).Floor
  }

  /** The index of a percentile, before it is cut to the sequence. */
  function Rank(count: nat, percentile: real, product: real -> real, sum: real -> real): int
    requires count > 0
  {
    Rounded(Times(count - 1, percentile), product, sum)
  }

  /** `percentileDuration`; zero for no samples. */
  function Percentile(sorted: seq<int>, percentile: real, product: real -> real, sum: real -> real): int
    requires |sorted| <= MAX_SAMPLES && 0.0 <= percentile <= 1.0 && Rounding(product) && Rounding(sum)
  {
    if sorted == [] then 0
    else
      RankInRange(|sorted|, percentile, product, sum);
      var index := Rank(|sorted|, percentile, product, sum);
      sorted[if index >= |sorted| then |sorted| - 1 else index]
  }

  /** However the arithmetic rounds, the rank of a proper percentile is an index. */
  lemma RankInRange(count: nat, percentile: real, product: real -> real, sum: real -> real)
    requires 1 <= count <= MAX_SAMPLES && 0.0 <= percentile <= 1.0 && Rounding(product) && Rounding(sum)
    ensures 0 <= Rank(count, percentile, product, sum) < count
  {
    var share := Times(count - 1, percentile);
    TimesInRange(count - 1, percentile);
    WholesRound(share, count - 1, product);
    HalvesRound(product(share) + 0.5, count - 1, sum);
  }

  lemma WholesRound(x: real, n: nat, product: real -> real)
    requires Rounding(product) && n <= MAX_SAMPLES && 0.0 <= x <= n as real
    ensures 0.0 <= product(x) <= n as real
  {
    assert product(Whole(0)) <= product(x) <= product(Whole(n));
  }

  lemma HalvesRound(x: real, n: nat, sum: real -> real)
    requires Rounding(sum) && n <= MAX_SAMPLES && 0.5 <= x <= n as real + 0.5
    ensures 0 <= sum(x).Floor <= n
  {
    assert sum(Whole(0) + 0.5) <= sum(x) <= sum(Whole(n) + 0.5);
    assert 0.5 <= sum(x) <= n as real + 0.5;
  }

  /** What all the roundings lose together, with room to spare. */
  const TOLERANCE: real := 0.000_000_001

  /** The index nearest to a fraction of the range, either one when two are equally near. */
  ghost predicate NearestRank(count: nat, fraction: real, index: int)
    requires count > 0
  {
    -0.5 - TOLERANCE <= index as real - Times(count - 1, fraction) <= 0.5 + TOLERANCE
  }

  lemma {:induction false} LossesAreSmall(n: nat)
    ensures Times(n, LOSS) == 0.000_000_000_001 * n as real
  {
    if n > 0 {
      LossesAreSmall(n - 1);
    }
  }

  lemma RoundedIsNear(share: real, n: nat, product: real -> real, sum: real -> real)
    requires n < MAX_SAMPLES && 0.0 <= share <= n as real && Rounding(product) && Rounding(sum)
    ensures -0.5 - 2.0 * LOSS <= Rounded(share, product, sum) as real - share <= 0.5 + 2.0 * LOSS
  {
    WholesRound(share, n, product);
    assert -LOSS <= product(share) - share <= LOSS;
    assert -LOSS <= sum(product(share) + 0.5) - (product(share) + 0.5) <= LOSS;
  }

  lemma FractionRounds(fraction: real, fl: real -> real)
    requires 0.0 <= fraction <= 1.0 && Rounding(fl)
    ensures 0.0 <= fl(fraction) <= 1.0 && -LOSS <= fl(fraction) - fraction <= LOSS
  {
    assert fl(Whole(0)) <= fl(fraction) <= fl(Whole(1));
  }

  /** However the arithmetic rounds, the rank of a fraction of the program is the nearest. */
  lemma RankIsNearest(count: nat, fraction: real, product: real -> real, sum: real -> real)
    requires 1 <= count <= MAX_SAMPLES && 0.0 <= fraction <= 1.0 && Rounding(product) && Rounding(sum)
    ensures NearestRank(count, fraction, Rank(count, sum(fraction), product, sum))
  {
    FractionRounds(fraction, sum);
    TimesInRange(count - 1, sum(fraction));
    TimesIsNear(count - 1, fraction, sum(fraction), LOSS);
    LossesAreSmall(count - 1);
    RoundedIsNear(Times(count - 1, sum(fraction)), count - 1, product, sum);
  }

  lemma RoundedGrows(x: real, y: real, product: real -> real, sum: real -> real)
    requires x <= y && Rounding(product) && Rounding(sum)
    ensures Rounded(x, product, sum) <= Rounded(y, product, sum)
  {
    assert product(x) <= product(y);
    assert sum(product(x) + 0.5) <= sum(product(y) + 0.5);
  }

  lemma RankIsMonotone(count: nat, p: real, q: real, product: real -> real, sum: real -> real)
    requires count > 0 && 0.0 <= p <= q && Rounding(product) && Rounding(sum)
    ensures Rank(count, p, product, sum) <= Rank(count, q, product, sum)
  {
    TimesGrows(count - 1, p, q);
    RoundedGrows(Times(count - 1, p), Times(count - 1, q), product, sum);
  }

  /** A higher percentile is never lower, and every percentile is a sample. */
  lemma PercentilesAreOrdered(sorted: seq<int>, p: real, q: real, product: real -> real, sum: real -> real)
    requires Ascending(sorted) && |sorted| <= MAX_SAMPLES && 0.0 <= p <= q <= 1.0 && Rounding(product) && Rounding(sum)
    ensures Percentile(sorted, p, product, sum) <= Percentile(sorted, q, product, sum)
    ensures sorted != [] ==>
      Percentile(sorted, q, product, sum) in sorted && Percentile(sorted, q, product, sum) <= sorted[|sorted| - 1]
  {
    if sorted != [] {
      RankInRange(|sorted|, p, product, sum);
      RankInRange(|sorted|, q, product, sum);
      RankIsMonotone(|sorted|, p, q, product, sum);
    }
  }

  // ---- Snapshots -------------------------------------------------------------------------

  function Insert(sorted: seq<int>, x: int): seq<int> {
    if sorted == [] || x <= sorted[0] then [x] + sorted else [sorted[0]] + Insert(sorted[1..], x)
  }

  function Sort(values: seq<int>): seq<int> {
    if values == [] then [] else Insert(Sort(values[1..]), values[0])
  }

  lemma {:induction false} InsertAdds(sorted: seq<int>, x: int)
    ensures multiset(Insert(sorted, x)) == multiset(sorted) + multiset{x}
  {
    if sorted != [] && sorted[0] < x {
      InsertAdds(sorted[1..], x);
      assert sorted == [sorted[0]] + sorted[1..];
    }
  }

  lemma AscendingBefore(x: int, sorted: seq<int>)
    requires Ascending(sorted) && forall y :: y in sorted ==> x <= y
    ensures Ascending([x] + sorted)
  {
    var longer := [x] + sorted;
    forall i, j | 0 <= i <= j < |longer| ensures longer[i] <= longer[j] {
      if i > 0 {
        assert sorted[i - 1] <= sorted[j - 1];
      } else if j > 0 {
        assert sorted[j - 1] in sorted;
      }
    }
  }

  lemma {:induction false} InsertSorts(sorted: seq<int>, x: int)
    requires Ascending(sorted)
    ensures Ascending(Insert(sorted, x))
  {
    if sorted == [] || x <= sorted[0] {
      AscendingBefore(x, sorted);
    } else {
      InsertSorts(sorted[1..], x);
      forall y | y in Insert(sorted[1..], x) ensures sorted[0] <= y {
        InsertAdds(sorted[1..], x);
        assert y in multiset(Insert(sorted[1..], x));
        assert y == x || y in sorted[1..];
      }
      AscendingBefore(sorted[0], Insert(sorted[1..], x));
    }
  }

  lemma {:induction false} SortSorts(values: seq<int>)
    ensures Ascending(Sort(values)) && multiset(Sort(values)) == multiset(values) && |Sort(values)| == |values|
  {
    if values != [] {
      SortSorts(values[1..]);
      InsertSorts(Sort(values[1..]), values[0]);
      InsertAdds(Sort(values[1..]), values[0]);
      assert values == [values[0]] + values[1..];
    }
    assert |Sort(values)| == |multiset(Sort(values))| == |multiset(values)| == |values|;
  }

  datatype Summary = Summary(count: nat, p50: int, p95: int, p99: int, max: int, samples: seq<int>)

  function Summarized(sorted: seq<int>, product: real -> real, sum: real -> real): Summary
    requires 0 < |sorted| <= MAX_SAMPLES && Rounding(product) && Rounding(sum)
  {
    FractionsRound(sum);
    Summary(|sorted|, Percentile(sorted, sum(0.50), product, sum), Percentile(sorted, sum(0.95), product, sum),
            Percentile(sorted, sum(0.99), product, sum), sorted[|sorted| - 1], sorted)
  }

  /** The fractions as they are written in the program, rounded like everything else. */
  lemma FractionsRound(fl: real -> real)
    requires Rounding(fl)
    ensures 0.0 <= fl(0.50) <= fl(0.95) <= fl(0.99) <= 1.0
  {
    assert fl(Whole(0)) == 0.0 && fl(Whole(1)) == 1.0;
  }

  /** A value stands in the sorted samples at the rank of a fraction. */
  ghost predicate StandsAt(samples: seq<int>, value: int, fraction: real) {
    exists i :: 0 <= i < |samples| && samples[i] == value && NearestRank(|samples|, fraction, i)
  }

  lemma PercentileStands(sorted: seq<int>, fraction: real, product: real -> real, sum: real -> real)
    requires 0 < |sorted| <= MAX_SAMPLES && 0.0 <= fraction <= 1.0 && Rounding(product) && Rounding(sum)
    ensures 0.0 <= sum(fraction) <= 1.0
    ensures StandsAt(sorted, Percentile(sorted, sum(fraction), product, sum), fraction)
  {
    FractionRounds(fraction, sum);
    RankInRange(|sorted|, sum(fraction), product, sum);
    RankIsNearest(|sorted|, fraction, product, sum);
  }

  /** What a snapshot says of a window: its samples are the last observations, sorted; its
      percentiles stand among them at their ranks and are in order; its maximum bounds them all. */
  ghost predicate Describes(summary: Summary, observed: seq<int>) {
    && StandsAt(summary.samples, summary.p50, 0.50)
    && StandsAt(summary.samples, summary.p95, 0.95)
    && StandsAt(summary.samples, summary.p99, 0.99)
    && Ascending(summary.samples) && multiset(summary.samples) == multiset(observed) && summary.count == |observed|
    && summary.p50 <= summary.p95 <= summary.p99 <= summary.max
    && summary.p50 in observed && summary.p95 in observed && summary.p99 in observed && summary.max in observed
    && (forall x :: x in observed ==> x <= summary.max)
  }

  lemma SummaryDescribes(values: seq<int>, product: real -> real, sum: real -> real)
    requires 0 < |values| <= MAX_SAMPLES && Rounding(product) && Rounding(sum)
    ensures |Sort(values)| == |values| && Describes(Summarized(Sort(values), product, sum), values)
  {
    var sorted := Sort(values);
    SortSorts(values);
    FractionsRound(sum);
    PercentilesAreOrdered(sorted, sum(0.50), sum(0.50), product, sum);
    PercentilesAreOrdered(sorted, sum(0.50), sum(0.95), product, sum);
    PercentilesAreOrdered(sorted, sum(0.95), sum(0.99), product, sum);
    PercentileStands(sorted, 0.50, product, sum);
    PercentileStands(sorted, 0.95, product, sum);
    PercentileStands(sorted, 0.99, product, sum);
    SameMembers(sorted, values);
  }

  lemma SameMembers(a: seq<int>, b: seq<int>)
    requires multiset(a) == multiset(b)
    ensures forall x :: x in a <==> x in b
  {
    forall x ensures x in a <==> x in b {
      assert x in a <==> x in multiset(a);
      assert x in b <==> x in multiset(b);
    }
  }

  lemma DescribesRotation(summary: Summary, values: seq<int>, next: nat)
    requires next <= |values| && Describes(summary, values)
    ensures Describes(summary, Unrolled(values, next))
  {
    SameSamples(values, next);
    SameMembers(values, Unrolled(values, next));
  }

  // ---- Label keys ------------------------------------------------------------------------

  const SEPARATOR: char := '\U{1F}'

  type Labels = map<string, string>

  /** The label names that may be recorded, in sorted order. */
  const ALLOWED: seq<string> := ["method", "resource", "route", "status", "strategy", "traffic"]

  /** The `name=value` parts of the labels present, in the order of the names. */
  function Parts(names: seq<string>, labels: Labels): seq<string> {
    if names == [] then []
    else
      var rest, name := Parts(names[..|names| - 1], labels), names[|names| - 1];
      if name in labels then rest + [name + "=" + labels[name]] else rest
  }

  /** `labelKey`, for any list of allowed names. */
  function LabelKey(names: seq<string>, labels: Labels): string {
    Text.Join(Parts(names, labels), SEPARATOR)
  }

  /** `strings.Cut` at the first equals sign. */
  function Cut(part: string): Option<(string, string)> {
    if part == [] then None
    else if part[0] == '=' then Some(("", part[1..]))
    else
      match Cut(part[1..])
      case None => None
      case Some(found) => Some(([part[0]] + found.0, found.1))
  }

  function DecodeParts(parts: seq<string>): Labels {
    if parts == [] then map[]
    else
      var rest, cut := DecodeParts(parts[..|parts| - 1]), Cut(parts[|parts| - 1]);
      if cut.Some? then rest[cut.value.0 := cut.value.1] else rest
  }

  /** `decodeLabelKey`. */
  function DecodeLabelKey(key: string): Labels {
    if key == "" then map[] else DecodeParts(Text.Split(key, SEPARATOR))
  }

  function Restricted(names: seq<string>, labels: Labels): Labels {
    map name | name in labels && name in names :: labels[name]
  }

  /** The names are distinct and hold neither an equals sign nor a separator. */
  ghost predicate Clean(names: seq<string>) {
    && (forall i :: 0 <= i < |names| ==> '=' !in names[i] && SEPARATOR !in names[i])
    && (forall i, j :: 0 <= i < j < |names| ==> names[i] != names[j])
  }

  lemma AllowedIsClean()
    ensures Clean(ALLOWED)
  {
  }

  lemma {:induction false} CutFirst(name: string, value: string)
    requires '=' !in name
    ensures Cut(name + "=" + value) == Some((name, value))
  {
    var part := name + "=" + value;
    if name == [] {
      assert part[1..] == value;
    } else {
      assert part[1..] == name[1..] + "=" + value;
      CutFirst(name[1..], value);
      assert [name[0]] + name[1..] == name;
    }
  }

  lemma {:induction false} CutIsPart(part: string, c: char)
    requires Cut(part).Some? && c !in part
    ensures c !in Cut(part).value.1
  {
    if part[0] != '=' {
      CutIsPart(part[1..], c);
    }
  }

  /** Decoding the parts gives back the labels that are allowed. */
  lemma {:induction false} DecodeOfParts(names: seq<string>, labels: Labels)
    requires Clean(names)
    ensures DecodeParts(Parts(names, labels)) == Restricted(names, labels)
  {
    if names != [] {
      var n := |names| - 1;
      DecodeOfParts(names[..n], labels);
      assert names == names[..n] + [names[n]];
      if names[n] in labels {
        CutFirst(names[n], labels[names[n]]);
        var rest := Parts(names[..n], labels);
        assert Parts(names, labels)[..|rest|] == rest;
      }
    }
  }

  ghost predicate ValuesFree(names: seq<string>, labels: Labels) {
    forall name :: name in labels && name in names ==> SEPARATOR !in labels[name]
  }

  lemma {:induction false} PartsAreFree(names: seq<string>, labels: Labels)
    requires Clean(names) && ValuesFree(names, labels)
    ensures Text.AllFree(Parts(names, labels), SEPARATOR)
  {
    if names != [] {
      var n := |names| - 1;
      assert names == names[..n] + [names[n]];
      PartsAreFree(names[..n], labels);
      assert names[n] in names;
    }
  }

  /** Decoded values never hold the separator. */
  lemma {:induction false} DecodedIsFree(parts: seq<string>, name: string)
    requires Text.AllFree(parts, SEPARATOR) && name in DecodeParts(parts)
    ensures SEPARATOR !in DecodeParts(parts)[name]
  {
    var n := |parts| - 1;
    var cut := Cut(parts[n]);
    assert Text.Free(parts[n], SEPARATOR);
    if cut.Some? {
      CutIsPart(parts[n], SEPARATOR);
    }
    if !(cut.Some? && cut.value.0 == name) {
      DecodedIsFree(parts[..n], name);
    }
  }

  lemma {:induction false} KeyIsEmpty(names: seq<string>, labels: Labels)
    ensures LabelKey(names, labels) == "" <==> Parts(names, labels) == []
  {
    var parts := Parts(names, labels);
    if parts != [] {
      PartsAreLong(names, labels, 0);
      assert Text.Join(parts, SEPARATOR)[..|parts[0]|] == parts[0];
    }
  }

  lemma {:induction false} PartsAreLong(names: seq<string>, labels: Labels, i: nat)
    requires i < |Parts(names, labels)|
    ensures |Parts(names, labels)[i]| > 0
  {
    if i < |Parts(names[..|names| - 1], labels)| {
      PartsAreLong(names[..|names| - 1], labels, i);
    }
  }

  /** For any list of clean names: a key decodes to the listed labels it was made from, exactly when
      none of their values holds the separator. */
  lemma KeyRoundTrip(names: seq<string>, labels: Labels)
    requires Clean(names)
    ensures DecodeLabelKey(LabelKey(names, labels)) == Restricted(names, labels) <==> ValuesFree(names, labels)
  {
    var parts, key := Parts(names, labels), LabelKey(names, labels);
    KeyIsEmpty(names, labels);
    DecodeOfParts(names, labels);
    if ValuesFree(names, labels) {
      PartsAreFree(names, labels);
      if parts != [] {
        Text.SplitJoin(parts, SEPARATOR);
      }
    } else {
      var name :| name in labels && name in names && SEPARATOR in labels[name];
      assert name in Restricted(names, labels);
      if key != "" && name in DecodeLabelKey(key) {
        Text.JoinSplit(key, SEPARATOR);
        DecodedIsFree(Text.Split(key, SEPARATOR), name);
      }
    }
  }

  /** A label key decodes to the allowed labels it was made from, exactly when none of their values
      holds the separator. */
  lemma LabelKeyRoundTrip(labels: Labels)
    ensures DecodeLabelKey(LabelKey(ALLOWED, labels)) == Restricted(ALLOWED, labels) <==> ValuesFree(ALLOWED, labels)
  {
    AllowedIsClean();
    KeyRoundTrip(ALLOWED, labels);
  }

  /** A method with a separator in it does not come back. */
  lemma SeparatorIsLost()
    ensures var labels := map["method" := [SEPARATOR]];
      DecodeLabelKey(LabelKey(ALLOWED, labels)) != Restricted(ALLOWED, labels)
  {
    var labels: Labels := map["method" := [SEPARATOR]];
    assert ALLOWED[0] == "method" && SEPARATOR in labels["method"];
    assert !ValuesFree(ALLOWED, labels);
    LabelKeyRoundTrip(labels);
  }
}

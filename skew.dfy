/** The skew profiler: counts the records under each primary key and picks
    the keys whose count is far above the average, so that the join can
    salt them. */
module Skew {
  import opened Text
  import opened Tally

  /** The counted key: the first tab field of the stripped line, cut at its
      first comma when it has one (the action aggregation's composite key). */
  function SkewKey(line: string): string {
    var key := Split(Strip(line), '\t')[0];
    if ',' in key then Split(key, ',')[0] else key
  }

  /** One entry of weight 1 per line, every line included. */
  function KeyEntries(lines: seq<string>): (es: seq<(string, int)>)
    ensures |es| == |lines|
  {
    seq(|lines|, i requires 0 <= i < |lines| => (SkewKey(lines[i]), 1))
  }

  lemma KeyEntriesPrefix(lines: seq<string>, i: nat)
    requires i < |lines|
    ensures KeyEntries(lines[..i + 1]) == KeyEntries(lines[..i]) + [(SkewKey(lines[i]), 1)]
  {
  }

  /** The skew report, without the floating-point distribution statistics. */
  datatype SkewReport = SkewReport(totalRecords: nat, uniqueKeys: nat, skewThreshold: real,
                                   skewedKeys: seq<string>, topKeys: seq<(string, int)>)

  /** The factor the profiler is run with. */
  const DefaultFactor: real := 0.01

  /** `max(factor * total, total / unique * 5)`. */
  function SkewThreshold(factor: real, total: nat, unique: nat): (t: real)
    requires unique > 0
    ensures t >= factor * total as real && t >= (total as real / unique as real) * 5.0
    ensures t == factor * total as real || t == (total as real / unique as real) * 5.0
  {
    var absolute := factor * total as real;
    var relative := (total as real / unique as real) * 5.0;
    if absolute >= relative then absolute else relative
  }

  /** The keys, in item order, whose count is strictly above t. */
  function Above(items: seq<(string, int)>, t: real): (r: seq<string>)
    ensures |r| <= |items|
    ensures forall k :: k in r <==> exists i :: 0 <= i < |items| && items[i].0 == k && items[i].1 as real > t
  {
    if items == [] then []
    else
      var r := (if items[0].1 as real > t then [items[0].0] else []) + Above(items[1..], t);
      assert forall i :: 0 < i < |items| ==> items[i] == items[1..][i - 1];
      r
  }

  /** `key_counter.items()`: each key with its count, in first-seen order. */
  function Items(ks: seq<string>, es: seq<(string, int)>): (r: seq<(string, int)>)
    ensures |r| == |ks|
  {
    seq(|ks|, i requires 0 <= i < |ks| => (ks[i], Total(es, ks[i])))
  }

  /** Puts x before the first item whose count is not larger than its own. */
  function InsertDesc(x: (string, int), s: seq<(string, int)>): (r: seq<(string, int)>)
    ensures |r| == |s| + 1
    ensures multiset(r) == multiset(s) + multiset{x}
  {
    if s == [] || s[0].1 <= x.1 then [x] + s
    else
      var r := [s[0]] + InsertDesc(x, s[1..]);
      assert s == [s[0]] + s[1..];
      r
  }

  /** A stable sort by descending count. */
  function SortDesc(items: seq<(string, int)>): (r: seq<(string, int)>)
    ensures |r| == |items|
    ensures multiset(r) == multiset(items)
  {
    if items == [] then []
    else
      var r := InsertDesc(items[0], SortDesc(items[1..]));
      assert items == [items[0]] + items[1..];
      r
  }

  /** `Counter.most_common(n)`. */
  function MostCommon(items: seq<(string, int)>, n: nat): (r: seq<(string, int)>)
    ensures |r| == if |items| <= n then |items| else n
  {
    var s := SortDesc(items);
    if |s| <= n then s else s[..n]
  }

  /** `analyze_key_distribution(lines, factor)`. */
  function Analysis(lines: seq<string>, factor: real): SkewReport {
    var es := KeyEntries(lines);
    var ks := Order(es);
    if ks == [] then SkewReport(0, 0, 0.0, [], [])
    else
      var t := SkewThreshold(factor, |lines|, |ks|);
      var items := Items(ks, es);
      SkewReport(|lines|, |ks|, t, Above(items, t), MostCommon(items, 10))
  }

  /** The profiler: the counting loop, then the statistics. */
  method AnalyzeKeyDistribution(lines: seq<string>, factor: real) returns (report: SkewReport)
    ensures report == Analysis(lines, factor)
  {
    var keyCounter: map<string, int> := map[];
    var order: seq<string> := [];
    var totalRecords := 0;
    ghost var es: seq<(string, int)> := [];
    for i := 0 to |lines|
      invariant es == KeyEntries(lines[..i])
      invariant totalRecords == i
      invariant Counted(order, keyCounter, es)
    {
      KeyEntriesPrefix(lines, i);
      totalRecords := totalRecords + 1;
      var key := Split(Strip(lines[i]), '\t')[0];
      if ',' in key {
        key := Split(key, ',')[0];
      }
      order, keyCounter := Add(order, keyCounter, key, 1, es);
      es := es + [(key, 1)];
    }
    assert lines[..|lines|] == lines;
    if order == [] {
      return SkewReport(0, 0, 0.0, [], []);
    }
    var uniqueKeys := |order|;
    var skewThreshold := SkewThreshold(factor, totalRecords, uniqueKeys);
    var items := seq(|order|, i requires 0 <= i < |order| => (order[i], keyCounter[order[i]]));
    assert items == Items(order, es);
    var skewedKeys := Above(items, skewThreshold);
    var topKeys := MostCommon(items, 10);
    report := SkewReport(totalRecords, uniqueKeys, skewThreshold, skewedKeys, topKeys);
  }

  // ------------------------------------------------------------ properties

  /** Every line is counted, blank ones under the empty key, and the
      per-key counts add up to the number of lines. */
  lemma CountsSumToTotal(lines: seq<string>)
    ensures SumTotals(Order(KeyEntries(lines)), KeyEntries(lines)) == |lines|
    ensures forall i :: 0 <= i < |lines| && Strip(lines[i]) == [] ==> SkewKey(lines[i]) == ""
  {
    var es := KeyEntries(lines);
    OrderTotals(es);
    UnitWeights(es);
  }

  lemma {:induction false} UnitWeights(es: seq<(string, int)>)
    requires forall i :: 0 <= i < |es| ==> es[i].1 == 1
    ensures SumWeights(es) == |es|
  {
    if es != [] {
      UnitWeights(es[..|es| - 1]);
    }
  }

  /** The counted key is the first tab field up to its first comma. */
  lemma KeyIsPrefix(line: string)
    ensures var field := Split(Strip(line), '\t')[0];
            SkewKey(line) == field[..IndexOf(field, ',')]
  {
    var field := Split(Strip(line), '\t')[0];
    SplitHead(field, ',');
    IndexOfAbsent(field, ',');
  }

  /** Empty input gives the all-zero report; any line makes the key set
      non-empty, so the average is never taken over zero keys. */
  lemma EmptyInput(lines: seq<string>, factor: real)
    ensures Analysis(lines, factor).uniqueKeys == 0 <==> lines == []
    ensures lines == [] ==> Analysis(lines, factor) == SkewReport(0, 0, 0.0, [], [])
  {
    if lines != [] {
      assert KeyEntries(lines)[0].0 in Order(KeyEntries(lines));
    }
  }

  /** With the default factor the threshold test is exact integer
      arithmetic: 100 * count > total and count * unique > 5 * total. */
  lemma SkewedExact(count: int, total: nat, unique: nat)
    requires unique > 0
    ensures count as real > SkewThreshold(DefaultFactor, total, unique)
        <==> 100 * count > total && count * unique > 5 * total
  {
    var c, t, u := count as real, total as real, unique as real;
    ScaleCompare(c, t, u);
    assert (count * unique) as real == c * u;
    assert (5 * total) as real == 5.0 * t;
    assert (100 * count) as real == 100.0 * c;
  }

  /** Comparing with five times the average t / u is comparing c * u with
      5 * t. */
  lemma ScaleCompare(c: real, t: real, u: real)
    requires u > 0.0
    ensures c > (t / u) * 5.0 <==> c * u > 5.0 * t
  {
    var q := t / u;
    assert q * u == t;
    var d := c - q * 5.0;
    assert d * u == c * u - 5.0 * t by {
      assert d * u == c * u - (q * 5.0) * u;
      assert (q * 5.0) * u == 5.0 * (q * u);
    }
    PositiveProduct(d, u);
  }

  lemma PositiveProduct(d: real, u: real)
    requires u > 0.0
    ensures d > 0.0 <==> d * u > 0.0
  {
    if d <= 0.0 {
      assert d * u <= 0.0;
    }
  }

  /** The number of counts strictly above five times the average. */
  function Heavy(cs: seq<int>, unique: nat, total: nat): nat {
    if cs == [] then 0
    else (if cs[0] * unique > 5 * total then 1 else 0) + Heavy(cs[1..], unique, total)
  }

  function Sum(cs: seq<int>): int {
    if cs == [] then 0 else cs[0] + Sum(cs[1..])
  }

  /** Each heavy count exceeds 5 * total / unique, so they add up to more
      than 5 * total / unique per heavy count. */
  lemma {:induction false} HeavyBound(cs: seq<int>, unique: nat, total: nat)
    requires forall i :: 0 <= i < |cs| ==> cs[i] >= 0
    ensures Heavy(cs, unique, total) * 5 * total <= Sum(cs) * unique
    ensures Heavy(cs, unique, total) > 0 ==> Heavy(cs, unique, total) * 5 * total < Sum(cs) * unique
  {
    if cs != [] {
      HeavyBound(cs[1..], unique, total);
      var h, s := Heavy(cs[1..], unique, total), Sum(cs[1..]);
      var b := if cs[0] * unique > 5 * total then 1 else 0;
      Distribute(cs[0], s, unique);
      Distribute(b * 5, h * 5, total);
      assert (b + h) * 5 == b * 5 + h * 5;
      NonNegativeProduct(cs[0], unique);
    }
  }

  lemma Distribute(a: int, b: int, c: int)
    ensures (a + b) * c == a * c + b * c
  {
  }

  lemma NonNegativeProduct(a: int, b: int)
    requires a >= 0 && b >= 0
    ensures a * b >= 0
  {
  }

  /** The counts of the keys, in first-seen order. */
  function Counts(ks: seq<string>, es: seq<(string, int)>): (r: seq<int>)
    ensures |r| == |ks|
  {
    seq(|ks|, i requires 0 <= i < |ks| => Total(es, ks[i]))
  }

  lemma {:induction false} CountsSum(ks: seq<string>, es: seq<(string, int)>)
    ensures Sum(Counts(ks, es)) == SumTotals(ks, es)
  {
    if ks != [] {
      CountsSum(ks[1..], es);
      assert Counts(ks, es)[1..] == Counts(ks[1..], es);
    }
  }

  /** The skewed keys are heavy ones. */
  lemma {:induction false} AboveHeavy(items: seq<(string, int)>, t: real, unique: nat, total: nat)
    requires unique > 0 && t >= (total as real / unique as real) * 5.0
    ensures |Above(items, t)| <= Heavy(Seconds(items), unique, total)
  {
    if items != [] {
      AboveHeavy(items[1..], t, unique, total);
      assert Seconds(items)[1..] == Seconds(items[1..]);
      var c := items[0].1;
      if c as real > t {
        var cr, tr, ur := c as real, total as real, unique as real;
        assert cr > (tr / ur) * 5.0;
        ScaleCompare(cr, tr, ur);
        assert (c * unique) as real == cr * ur;
        assert (5 * total) as real == 5.0 * tr;
        assert c * unique > 5 * total;
      }
    }
  }

  /** The counts of the items. */
  function Seconds(items: seq<(string, int)>): (r: seq<int>)
    ensures |r| == |items|
  {
    seq(|items|, i requires 0 <= i < |items| => items[i].1)
  }

  /** Every skewed key has more than five times the average count, so fewer
      than a fifth of the keys can be skewed. */
  lemma FewSkewed(lines: seq<string>, factor: real)
    requires lines != []
    ensures 5 * |Analysis(lines, factor).skewedKeys| < Analysis(lines, factor).uniqueKeys
  {
    var es := KeyEntries(lines);
    var ks := Order(es);
    EmptyInput(lines, factor);
    var t := SkewThreshold(factor, |lines|, |ks|);
    AboveHeavy(Items(ks, es), t, |ks|, |lines|);
    KeyCounts(lines);
    HeavyFew(Counts(ks, es), |ks|, |lines|);
  }

  /** The key counts are non-negative and add up to the number of lines. */
  lemma KeyCounts(lines: seq<string>)
    ensures var es := KeyEntries(lines);
            var cs := Counts(Order(es), es);
            && Seconds(Items(Order(es), es)) == cs
            && (forall i :: 0 <= i < |cs| ==> cs[i] >= 0)
            && Sum(cs) == |lines|
  {
    var es := KeyEntries(lines);
    var ks := Order(es);
    var cs := Counts(ks, es);
    forall i | 0 <= i < |cs| ensures cs[i] >= 0 {
      TotalNonNegative(es, ks[i]);
    }
    CountsSum(ks, es);
    CountsSumToTotal(lines);
  }

  /** Fewer than a fifth of a positive total's counts are heavy. */
  lemma HeavyFew(cs: seq<int>, unique: nat, total: nat)
    requires forall i :: 0 <= i < |cs| ==> cs[i] >= 0
    requires Sum(cs) == total > 0 && unique > 0
    ensures 5 * Heavy(cs, unique, total) < unique
  {
    HeavyBound(cs, unique, total);
    var h := Heavy(cs, unique, total);
    if h > 0 {
      assert (h * 5) * total < unique * total;
    }
  }

  lemma {:induction false} TotalNonNegative(es: seq<(string, int)>, k: string)
    requires forall i :: 0 <= i < |es| ==> es[i].1 >= 0
    ensures Total(es, k) >= 0
  {
    if es != [] {
      TotalNonNegative(es[..|es| - 1], k);
    }
  }

  /** The skewed keys are exactly the keys counted more than the threshold,
      in first-seen order. */
  lemma SkewedKeysExact(lines: seq<string>, factor: real, k: string)
    requires lines != []
    ensures var r := Analysis(lines, factor);
            k in r.skewedKeys <==> k in Order(KeyEntries(lines)) && Total(KeyEntries(lines), k) as real > r.skewThreshold
  {
    EmptyInput(lines, factor);
    var es := KeyEntries(lines);
    var ks := Order(es);
    var items := Items(ks, es);
    if k in ks {
      var i :| 0 <= i < |ks| && ks[i] == k;
      assert items[i].0 == k;
    }
  }

  // ----------------------------------------------------------- most common

  predicate NonIncreasing(s: seq<(string, int)>) {
    forall i, j :: 0 <= i < j < |s| ==> s[i].1 >= s[j].1
  }

  /** The items with count c, in order. */
  function WithCount(s: seq<(string, int)>, c: int): seq<(string, int)> {
    if s == [] then []
    else (if s[0].1 == c then [s[0]] else []) + WithCount(s[1..], c)
  }

  lemma {:induction false} InsertDescSorted(x: (string, int), s: seq<(string, int)>)
    requires NonIncreasing(s)
    ensures NonIncreasing(InsertDesc(x, s))
  {
    if s != [] && s[0].1 > x.1 {
      InsertDescSorted(x, s[1..]);
      var r := InsertDesc(x, s[1..]);
      assert multiset(r) == multiset(s[1..]) + multiset{x};
      forall j | 0 <= j < |r| ensures s[0].1 >= r[j].1 {
        assert r[j] in multiset(r);
        if r[j] != x {
          assert r[j] in multiset(s[1..]);
          var k :| 0 <= k < |s[1..]| && s[1..][k] == r[j];
          assert s[k + 1] == r[j];
        }
      }
    }
  }

  /** Inserting x puts it ahead of the items with its own count. */
  lemma {:induction false} InsertDescStable(x: (string, int), s: seq<(string, int)>, c: int)
    ensures WithCount(InsertDesc(x, s), c) == (if x.1 == c then [x] else []) + WithCount(s, c)
  {
    if s == [] || s[0].1 <= x.1 {
      assert ([x] + s)[1..] == s;
    } else {
      InsertDescStable(x, s[1..], c);
      var rest := InsertDesc(x, s[1..]);
      var r := [s[0]] + rest;
      assert InsertDesc(x, s) == r;
      assert r[0] == s[0] && r[1..] == rest;
      var head := if s[0].1 == c then [s[0]] else [];
      assert WithCount(r, c) == head + WithCount(rest, c);
      assert WithCount(s, c) == head + WithCount(s[1..], c);
    }
  }

  /** The sort orders by non-increasing count, keeps every item, and keeps
      items of equal count in their original order. */
  lemma {:induction false} SortDescSpec(items: seq<(string, int)>)
    ensures NonIncreasing(SortDesc(items))
    ensures forall c :: WithCount(SortDesc(items), c) == WithCount(items, c)
  {
    if items != [] {
      SortDescSpec(items[1..]);
      InsertDescSorted(items[0], SortDesc(items[1..]));
      forall c ensures WithCount(SortDesc(items), c) == WithCount(items, c) {
        InsertDescStable(items[0], SortDesc(items[1..]), c);
      }
    }
  }

  /** `most_common(n)`: at most n (key, count) pairs, by non-increasing
      count, ties in their original order, and no left-out item counted more
      than any listed one. */
  lemma MostCommonSpec(items: seq<(string, int)>, n: nat)
    ensures var r := MostCommon(items, n);
            && NonIncreasing(r)
            && r == SortDesc(items)[..|r|]
            && (forall i, j :: 0 <= i < |r| <= j < |items| ==> SortDesc(items)[j].1 <= r[i].1)
            && multiset(SortDesc(items)) == multiset(items)
            && (forall c :: WithCount(SortDesc(items), c) == WithCount(items, c))
  {
    SortDescSpec(items);
  }

  /** `top_keys` is `most_common(10)` of the key counts in first-seen order. */
  lemma TopKeys(lines: seq<string>, factor: real)
    ensures var r := Analysis(lines, factor);
            && |r.topKeys| <= 10
            && r.topKeys == if lines == [] then [] else MostCommon(Items(Order(KeyEntries(lines)), KeyEntries(lines)), 10)
  {
    EmptyInput(lines, factor);
  }
}

/** The trending-content job: a mapper counting likes and shares per content
    id, an additive combiner, and a reducer keeping the records whose
    engagement reaches a threshold. Every script strips each input line. */
module Trending {
  import opened Wrappers
  import opened Text
  import opened Numbers
  import opened Tally

  /** An emitted `content_id<TAB>count` line. */
  function CountLine(id: string, n: int): string {
    id + "\t" + FormatInt(n)
  }

  /** What a dict of counts prints, one line per key in first-seen order. */
  function EmitCounts(es: seq<(string, int)>): (r: seq<string>)
    ensures |r| == |Order(es)|
  {
    var ks := Order(es);
    seq(|ks|, i requires 0 <= i < |ks| => CountLine(ks[i], Total(es, ks[i])))
  }

  // ---------------------------------------------------------------- mapper

  /** The content id a mapper line engages with: lines with at least four
      fields whose action (third field, lower-cased) is like or share. */
  function Engagement(line: string): Option<string> {
    var fields := Split(Strip(line), '\t');
    if |fields| >= 4 && (Lower(fields[2]) == "like" || Lower(fields[2]) == "share")
    then Some(fields[3]) else None
  }

  /** The `content_engagement[content_id] += 1` entries of the mapper. */
  function MapperEntries(lines: seq<string>): (es: seq<(string, int)>)
    ensures forall i :: 0 <= i < |es| ==> es[i].1 == 1
  {
    if lines == [] then []
    else
      var prev := MapperEntries(lines[..|lines| - 1]);
      match Engagement(lines[|lines| - 1])
      case Some(id) => prev + [(id, 1)]
      case None => prev
  }

  /** The mapper's entries for one more line. */
  function EngagementEntry(line: string): seq<(string, int)> {
    match Engagement(line)
    case Some(id) => [(id, 1)]
    case None => []
  }

  lemma MapperEntriesSnoc(lines: seq<string>, l: string)
    ensures MapperEntries(lines + [l]) == MapperEntries(lines) + EngagementEntry(l)
  {
    assert (lines + [l])[..|lines|] == lines;
  }

  lemma MapperEntriesPrefix(lines: seq<string>, i: nat)
    requires i < |lines|
    ensures MapperEntries(lines[..i + 1]) == MapperEntries(lines[..i]) + EngagementEntry(lines[i])
  {
    assert lines[..i + 1] == lines[..i] + [lines[i]];
    MapperEntriesSnoc(lines[..i], lines[i]);
  }

  /** Number of input lines that contribute to the mapper's counts. */
  function Contributing(lines: seq<string>): nat {
    if lines == [] then 0
    else Contributing(lines[..|lines| - 1]) + (if Engagement(lines[|lines| - 1]).Some? then 1 else 0)
  }

  function MapperOutput(lines: seq<string>): seq<string> {
    EmitCounts(MapperEntries(lines))
  }

  /** The mapper script: counts in a dict, then prints the dict. */
  method RunMapper(lines: seq<string>) returns (out: seq<string>)
    ensures out == MapperOutput(lines)
  {
    var engagement: map<string, int> := map[];
    var order: seq<string> := [];
    ghost var es: seq<(string, int)> := [];
    for i := 0 to |lines|
      invariant es == MapperEntries(lines[..i])
      invariant Counted(order, engagement, es)
    {
      MapperEntriesPrefix(lines, i);
      var fields := Split(Strip(lines[i]), '\t');
      EngagementFields(lines[i], fields);
      if |fields| >= 4 {
        var contentId := fields[3];
        var actionType := Lower(fields[2]);
        if actionType == "like" || actionType == "share" {
          order, engagement := Add(order, engagement, contentId, 1, es);
          es := es + [(contentId, 1)];
        }
      }
    }
    assert lines[..|lines|] == lines;
    out := EmitDict(order, engagement, MapperEntries(lines));
  }

  /** The mapper's entry for a line, in terms of the line's fields. */
  lemma EngagementFields(line: string, fields: seq<string>)
    requires fields == Split(Strip(line), '\t')
    ensures EngagementEntry(line)
         == if |fields| >= 4 && (Lower(fields[2]) == "like" || Lower(fields[2]) == "share")
            then [(fields[3], 1)] else []
  {
  }

  /** The final `for k, v in d.items(): print(...)` loop shared by the
      mapper and the combiner. */
  method EmitDict(order: seq<string>, d: map<string, int>, ghost es: seq<(string, int)>)
    returns (out: seq<string>)
    requires Counted(order, d, es)
    ensures out == EmitCounts(es)
  {
    out := [];
    for j := 0 to |order|
      invariant out == EmitCounts(es)[..j]
    {
      var line := CountLine(order[j], d[order[j]]);
      assert EmitCounts(es)[j] == line;
      TakeOneMore(EmitCounts(es), j, line);
      out := out + [line];
    }
  }

  /** The mapper's printed counts add up to the number of contributing lines. */
  lemma MapperTotal(lines: seq<string>)
    ensures SumTotals(Order(MapperEntries(lines)), MapperEntries(lines)) == Contributing(lines)
  {
    OrderTotals(MapperEntries(lines));
    EntriesCount(lines);
  }

  lemma {:induction false} EntriesCount(lines: seq<string>)
    ensures SumWeights(MapperEntries(lines)) == Contributing(lines)
  {
    if lines != [] {
      var init := lines[..|lines| - 1];
      EntriesCount(init);
      var prev := MapperEntries(init);
      match Engagement(lines[|lines| - 1])
      case Some(id) =>
        assert (prev + [(id, 1)])[..|prev|] == prev;
      case None =>
    }
  }

  /** Every content id the mapper prints has engagement at least 1. */
  lemma {:induction false} MapperCountsPositive(lines: seq<string>, k: string)
    requires k in Order(MapperEntries(lines))
    ensures Total(MapperEntries(lines), k) >= 1
  {
    var es := MapperEntries(lines);
    var init := lines[..|lines| - 1];
    var prev := MapperEntries(init);
    match Engagement(lines[|lines| - 1])
    case Some(id) =>
      Step(prev, (id, 1));
      if k in Order(prev) {
        MapperCountsPositive(init, k);
        TotalNonNegative(prev, id);
      } else {
        AbsentTotal(prev, k);
      }
    case None =>
      MapperCountsPositive(init, k);
  }

  lemma {:induction false} TotalNonNegative(es: seq<(string, int)>, k: string)
    requires forall i :: 0 <= i < |es| ==> es[i].1 >= 0
    ensures Total(es, k) >= 0
  {
    if es != [] {
      TotalNonNegative(es[..|es| - 1], k);
    }
  }

  /** A line that is not a like or share (a post, a comment, a short line)
      can be removed from anywhere in the input without changing the
      mapper's output. */
  lemma {:induction false} IgnoredLine(a: seq<string>, l: string, b: seq<string>)
    requires Engagement(l).None?
    ensures MapperEntries(a + [l] + b) == MapperEntries(a + b)
    ensures MapperOutput(a + [l] + b) == MapperOutput(a + b)
    decreases |b|
  {
    if b == [] {
      assert a + [l] + b == a + [l];
      assert a + b == a;
      IgnoredLast(a, l);
    } else {
      var b', x := b[..|b| - 1], b[|b| - 1];
      SplitLast(a, l, b);
      IgnoredLine(a, l, b');
      SameEntriesSnoc(a + [l] + b', a + b', x);
    }
  }

  lemma SameEntriesSnoc(p: seq<string>, q: seq<string>, x: string)
    requires MapperEntries(p) == MapperEntries(q)
    ensures MapperEntries(p + [x]) == MapperEntries(q + [x])
  {
    MapperEntriesSnoc(p, x);
    MapperEntriesSnoc(q, x);
  }

  /** Regrouping `a + [l] + b` around the last element of b. */
  lemma SplitLast(a: seq<string>, l: string, b: seq<string>)
    requires b != []
    ensures a + [l] + b == (a + [l] + b[..|b| - 1]) + [b[|b| - 1]]
    ensures a + b == (a + b[..|b| - 1]) + [b[|b| - 1]]
  {
    assert b == b[..|b| - 1] + [b[|b| - 1]];
  }

  lemma IgnoredLast(a: seq<string>, l: string)
    requires Engagement(l).None?
    ensures MapperEntries(a + [l]) == MapperEntries(a)
  {
    MapperEntriesSnoc(a, l);
  }

  // -------------------------------------------------------------- combiner

  /** One combiner line: `content_id, engagement = line.strip().split('\t')`
      must give exactly two fields; the dict entry is created before int()
      runs, so a non-integer count adds 0 rather than skipping the id. */
  function CombinerEntry(line: string): Option<(string, int)> {
    var parts := Split(Strip(line), '\t');
    if |parts| != 2 then None
    else
      match ParseInt(parts[1])
      case Some(n) => Some((parts[0], n))
      case None => Some((parts[0], 0))
  }

  function CombinerEntries(lines: seq<string>): seq<(string, int)> {
    if lines == [] then []
    else
      var prev := CombinerEntries(lines[..|lines| - 1]);
      match CombinerEntry(lines[|lines| - 1])
      case Some(e) => prev + [e]
      case None => prev
  }

  function CombinerEntryList(line: string): seq<(string, int)> {
    match CombinerEntry(line)
    case Some(e) => [e]
    case None => []
  }

  lemma CombinerEntriesSnoc(lines: seq<string>, l: string)
    ensures CombinerEntries(lines + [l]) == CombinerEntries(lines) + CombinerEntryList(l)
  {
    assert (lines + [l])[..|lines|] == lines;
  }

  lemma CombinerEntriesPrefix(lines: seq<string>, i: nat)
    requires i < |lines|
    ensures CombinerEntries(lines[..i + 1]) == CombinerEntries(lines[..i]) + CombinerEntryList(lines[i])
  {
    assert lines[..i + 1] == lines[..i] + [lines[i]];
    CombinerEntriesSnoc(lines[..i], lines[i]);
  }

  function CombinerOutput(lines: seq<string>): seq<string> {
    EmitCounts(CombinerEntries(lines))
  }

  /** The combiner script. */
  method RunCombiner(lines: seq<string>) returns (out: seq<string>)
    ensures out == CombinerOutput(lines)
  {
    var engagement: map<string, int> := map[];
    var order: seq<string> := [];
    ghost var es: seq<(string, int)> := [];
    for i := 0 to |lines|
      invariant es == CombinerEntries(lines[..i])
      invariant Counted(order, engagement, es)
    {
      CombinerEntriesPrefix(lines, i);
      var parts := Split(Strip(lines[i]), '\t');
      CombinerFields(lines[i], parts);
      if |parts| == 2 {
        var contentId := parts[0];
        // the lookup creates the entry before int() can fail, so a bad
        // count adds 0
        var delta := 0;
        match ParseInt(parts[1]) {
          case Some(n) => delta := n;
          case None =>
        }
        order, engagement := Add(order, engagement, contentId, delta, es);
        es := es + [(contentId, delta)];
      }
    }
    assert lines[..|lines|] == lines;
    out := EmitDict(order, engagement, CombinerEntries(lines));
  }

  /** The combiner's entry for a line, in terms of the line's fields. */
  lemma CombinerFields(line: string, parts: seq<string>)
    requires parts == Split(Strip(line), '\t')
    ensures CombinerEntryList(line)
         == if |parts| != 2 then []
            else [(parts[0], match ParseInt(parts[1]) case Some(n) => n case None => 0)]
  {
  }

  /** A content id as a stripped, tab-split line can produce it: no tab, not
      empty, not starting with whitespace. */
  predicate GoodId(id: string) {
    '\t' !in id && id != [] && !IsSpace(id[0])
  }

  /** A count line with a good id is read back as that id and count. */
  lemma ReadCountLine(id: string, n: int)
    requires GoodId(id)
    ensures Strip(CountLine(id, n)) == CountLine(id, n)
    ensures Split(Strip(CountLine(id, n)), '\t') == [id, FormatInt(n)]
    ensures CombinerEntry(CountLine(id, n)) == Some((id, n))
  {
    var s := FormatInt(n);
    FormatIntChars(n);
    var line := CountLine(id, n);
    assert line[0] == id[0];
    assert line[|line| - 1] == s[|s| - 1];
    StripTrimmed(line);
    assert '\t' !in s;
    assert Join([id, s], '\t') == line;
    SplitJoin([id, s], '\t');
    ParseFormat(n);
  }

  /** The ids a combiner entry carries are good ids. */
  lemma CombinerIdGood(line: string)
    requires CombinerEntry(line).Some?
    ensures GoodId(CombinerEntry(line).value.0)
  {
    var s := Strip(line);
    StripSpec(line);
    SplitHead(s, '\t');
    var parts := Split(s, '\t');
    IndexOfAbsent(s, '\t');
    if parts[0] != [] {
      assert parts[0][0] == s[0];
    }
  }

  lemma {:induction false} CombinerIdsGood(lines: seq<string>)
    ensures forall k :: k in Order(CombinerEntries(lines)) ==> GoodId(k)
  {
    if lines != [] {
      var init := lines[..|lines| - 1];
      CombinerIdsGood(init);
      var prev := CombinerEntries(init);
      var l := lines[|lines| - 1];
      if CombinerEntry(l).Some? {
        CombinerIdGood(l);
        Step(prev, CombinerEntry(l).value);
      }
    }
  }

  /** Count lines with distinct good ids pass through the combiner unchanged. */
  lemma CombineCanonical(es: seq<(string, int)>)
    requires forall i, j :: 0 <= i < j < |es| ==> es[i].0 != es[j].0
    requires forall i :: 0 <= i < |es| ==> GoodId(es[i].0)
    ensures CombinerOutput(seq(|es|, i requires 0 <= i < |es| => CountLine(es[i].0, es[i].1)))
            == seq(|es|, i requires 0 <= i < |es| => CountLine(es[i].0, es[i].1))
  {
    var lines := seq(|es|, i requires 0 <= i < |es| => CountLine(es[i].0, es[i].1));
    CombinerEntriesOfCanonical(es, lines);
    DistinctEntries(es);
  }

  lemma {:induction false} CombinerEntriesOfCanonical(es: seq<(string, int)>, lines: seq<string>)
    requires forall i :: 0 <= i < |es| ==> GoodId(es[i].0)
    requires |lines| == |es| && forall i :: 0 <= i < |es| ==> lines[i] == CountLine(es[i].0, es[i].1)
    ensures CombinerEntries(lines) == es
  {
    if es != [] {
      var n := |es| - 1;
      var init, prefix := es[..n], lines[..n];
      assert forall i :: 0 <= i < n ==> init[i] == es[i] && prefix[i] == lines[i];
      CombinerEntriesOfCanonical(init, prefix);
      ReadCountLine(es[n].0, es[n].1);
      assert CombinerEntryList(lines[n]) == [es[n]];
      FrontLast(lines);
      CombinerEntriesSnoc(prefix, lines[n]);
      FrontLast(es);
    }
  }

  /** Combining already-combined output reproduces it. */
  lemma CombineIdempotent(lines: seq<string>)
    ensures CombinerOutput(CombinerOutput(lines)) == CombinerOutput(lines)
  {
    var es := CombinerEntries(lines);
    var ks := Order(es);
    var es' := seq(|ks|, i requires 0 <= i < |ks| => (ks[i], Total(es, ks[i])));
    CombinerIdsGood(lines);
    CombineCanonical(es');
    assert CombinerOutput(lines) == seq(|es'|, i requires 0 <= i < |es'| => CountLine(es'[i].0, es'[i].1));
  }

  /** The combiner preserves the sum of the counts: the counts on the lines
      it prints, read back as the next script reads them, add up to the
      counts it read. */
  lemma CombinerPreservesSum(lines: seq<string>)
    ensures SumWeights(CombinerEntries(CombinerOutput(lines))) == SumWeights(CombinerEntries(lines))
  {
    var es := CombinerEntries(lines);
    var ks := Order(es);
    var es' := seq(|ks|, i requires 0 <= i < |ks| => (ks[i], Total(es, ks[i])));
    CombinerIdsGood(lines);
    CombinerEntriesOfCanonical(es', CombinerOutput(lines));
    CombinedSum(es, es');
  }

  /** The dict's entries, one per key with its total, weigh as much as the
      entries that built it. */
  lemma CombinedSum(es: seq<(string, int)>, es': seq<(string, int)>)
    requires |es'| == |Order(es)|
    requires forall i :: 0 <= i < |es'| ==> es'[i] == (Order(es)[i], Total(es, Order(es)[i]))
    ensures SumWeights(es') == SumWeights(es)
  {
    var ks := Order(es);
    DistinctEntries(es');
    assert Order(es') == ks;
    OrderTotals(es');
    SumTotalsAgree(ks, es', es);
    OrderTotals(es);
  }

  /** Sums of totals over the same keys agree when the totals do. */
  lemma {:induction false} SumTotalsAgree(ks: seq<string>, a: seq<(string, int)>, b: seq<(string, int)>)
    requires forall k :: k in ks ==> Total(a, k) == Total(b, k)
    ensures SumTotals(ks, a) == SumTotals(ks, b)
  {
    if ks != [] {
      SumTotalsAgree(ks[1..], a, b);
    }
  }

  // --------------------------------------------------------------- reducer

  /** One reducer line: exactly two tab fields and an integer count. */
  function ReducerRecord(line: string): Option<(string, int)> {
    var parts := Split(Strip(line), '\t');
    if |parts| != 2 then None
    else
      match ParseInt(parts[1])
      case Some(n) => Some((parts[0], n))
      case None => None
  }

  function RecordList(line: string): seq<(string, int)> {
    match ReducerRecord(line)
    case Some(r) => [r]
    case None => []
  }

  /** `content_data` after the first pass: the valid records in input order. */
  function ValidRecords(lines: seq<string>): seq<(string, int)> {
    if lines == [] then []
    else ValidRecords(lines[..|lines| - 1]) + RecordList(lines[|lines| - 1])
  }

  lemma ValidRecordsPrefix(lines: seq<string>, i: nat)
    requires i < |lines|
    ensures ValidRecords(lines[..i + 1]) == ValidRecords(lines[..i]) + RecordList(lines[i])
  {
    assert lines[..i + 1][..i] == lines[..i];
  }

  /** `all_engagements`: the counts of the records, in the same order. */
  function Engagements(rs: seq<(string, int)>): (r: seq<int>)
    ensures |r| == |rs| && forall i :: 0 <= i < |rs| ==> r[i] == rs[i].1
  {
    seq(|rs|, i requires 0 <= i < |rs| => rs[i].1)
  }

  /** The `TRENDING_THRESHOLD` setting read with int(), defaulting to -1;
      None when the variable is set to something int() rejects, which ends
      the script before it reads any input. */
  function ConfiguredThreshold(env: Option<string>): Option<int> {
    match env
    case None => Some(-1)
    case Some(v) => ParseInt(v)
  }

  /** The threshold applied: a non-negative setting as given; otherwise the
      90th percentile of the engagements, or 0 when there are none. The
      percentile is a parameter (numpy's interpolation is not modelled). */
  function Threshold(setting: int, rs: seq<(string, int)>, percentile: seq<int> -> real): real {
    if setting >= 0 then setting as real
    else if rs == [] then 0.0
    else percentile(Engagements(rs))
  }

  /** Python's int() on a float: truncation toward zero. */
  function Trunc(x: real): (r: int)
    ensures x >= 0.0 ==> r as real <= x < r as real + 1.0
    ensures x < 0.0 ==> r as real - 1.0 < x <= r as real
  {
    if x >= 0.0 then x.Floor else -((-x).Floor)
  }

  /** The counter line written to stderr. */
  function ThresholdReport(t: real): string {
    "reporter:counter:TrendingStats,ThresholdUsed," + FormatInt(Trunc(t))
  }

  /** The records whose engagement reaches the threshold, in input order. */
  function Trending(rs: seq<(string, int)>, t: real): seq<(string, int)> {
    if rs == [] then []
    else
      var last := rs[|rs| - 1];
      Trending(rs[..|rs| - 1], t) + (if last.1 as real >= t then [last] else [])
  }

  lemma TrendingPrefix(rs: seq<(string, int)>, t: real, j: nat)
    requires j < |rs|
    ensures Trending(rs[..j + 1], t) == Trending(rs[..j], t) + (if rs[j].1 as real >= t then [rs[j]] else [])
  {
    assert rs[..j + 1][..j] == rs[..j];
  }

  function RecordLines(rs: seq<(string, int)>): (r: seq<string>)
    ensures |r| == |rs|
  {
    seq(|rs|, i requires 0 <= i < |rs| => CountLine(rs[i].0, rs[i].1))
  }

  /** What the reducer produces when it runs to the end. */
  datatype TrendingRun = TrendingRun(out: seq<string>, threshold: real, report: string)

  /** The reducer script. `env` is the `TRENDING_THRESHOLD` variable and
      `percentile` stands for `np.percentile(_, 90)`. */
  method RunReducer(lines: seq<string>, env: Option<string>, percentile: seq<int> -> real)
    returns (run: Option<TrendingRun>)
    ensures ConfiguredThreshold(env).None? ==> run.None?
    ensures ConfiguredThreshold(env).Some? ==>
      var t := Threshold(ConfiguredThreshold(env).value, ValidRecords(lines), percentile);
      run == Some(TrendingRun(RecordLines(Trending(ValidRecords(lines), t)), t, ThresholdReport(t)))
  {
    var setting := ConfiguredThreshold(env);
    if setting.None? {
      return None;
    }
    var allEngagements, contentData := CollectRecords(lines);
    var threshold: real := setting.value as real;
    if setting.value < 0 {
      if |allEngagements| > 0 {
        threshold := percentile(allEngagements);
      } else {
        threshold := 0.0;
      }
    }
    var out := EmitTrending(contentData, threshold);
    run := Some(TrendingRun(out, threshold, ThresholdReport(threshold)));
  }

  /** The first pass: `all_engagements` and `content_data`. */
  method CollectRecords(lines: seq<string>) returns (allEngagements: seq<int>, contentData: seq<(string, int)>)
    ensures contentData == ValidRecords(lines)
    ensures allEngagements == Engagements(contentData)
  {
    allEngagements, contentData := [], [];
    for i := 0 to |lines|
      invariant contentData == ValidRecords(lines[..i])
      invariant allEngagements == Engagements(contentData)
    {
      ValidRecordsPrefix(lines, i);
      var parts := Split(Strip(lines[i]), '\t');
      RecordFields(lines[i], parts);
      if |parts| == 2 {
        match ParseInt(parts[1]) {
          case Some(n) =>
            EngagementsSnoc(contentData, (parts[0], n));
            allEngagements := allEngagements + [n];
            contentData := contentData + [(parts[0], n)];
          case None =>
        }
      }
    }
    assert lines[..|lines|] == lines;
  }

  lemma EngagementsSnoc(rs: seq<(string, int)>, r: (string, int))
    ensures Engagements(rs + [r]) == Engagements(rs) + [r.1]
  {
  }

  /** The reducer's record for a line, in terms of the line's fields. */
  lemma RecordFields(line: string, parts: seq<string>)
    requires parts == Split(Strip(line), '\t')
    ensures RecordList(line)
         == if |parts| == 2 && ParseInt(parts[1]).Some? then [(parts[0], ParseInt(parts[1]).value)] else []
  {
  }

  /** The second pass: print the records that reach the threshold. */
  method EmitTrending(contentData: seq<(string, int)>, threshold: real) returns (out: seq<string>)
    ensures out == RecordLines(Trending(contentData, threshold))
  {
    out := [];
    for j := 0 to |contentData|
      invariant out == RecordLines(Trending(contentData[..j], threshold))
    {
      TrendingPrefix(contentData, threshold, j);
      var (contentId, engagement) := contentData[j];
      if engagement as real >= threshold {
        out := out + [CountLine(contentId, engagement)];
      }
    }
    assert contentData[..|contentData|] == contentData;
  }

  /** Soundness and completeness of the filter: a record is emitted iff it
      is a valid record whose engagement reaches the threshold. */
  lemma {:induction false} TrendingMembers(rs: seq<(string, int)>, t: real, x: (string, int))
    ensures x in Trending(rs, t) <==> x in rs && x.1 as real >= t
  {
    if rs != [] {
      var init := rs[..|rs| - 1];
      TrendingMembers(init, t, x);
      assert rs == init + [rs[|rs| - 1]];
    }
  }

  /** A subsequence: b with some elements dropped, order kept. */
  predicate Subsequence(a: seq<(string, int)>, b: seq<(string, int)>)
    decreases |b|
  {
    if b == [] then a == []
    else
      || (a != [] && a[|a| - 1] == b[|b| - 1] && Subsequence(a[..|a| - 1], b[..|b| - 1]))
      || Subsequence(a, b[..|b| - 1])
  }

  /** The reducer emits the valid records in their input order. */
  lemma {:induction false} TrendingSubsequence(rs: seq<(string, int)>, t: real)
    ensures Subsequence(Trending(rs, t), rs)
  {
    if rs != [] {
      var init := rs[..|rs| - 1];
      var last := rs[|rs| - 1];
      TrendingSubsequence(init, t);
      var r := Trending(rs, t);
      if last.1 as real >= t {
        assert r[..|r| - 1] == Trending(init, t);
      } else {
        assert r == Trending(init, t);
      }
    }
  }

  /** With a fixed non-negative threshold the output is exactly the valid
      records whose count is at least the setting. */
  lemma FixedThreshold(lines: seq<string>, setting: int, percentile: seq<int> -> real, x: (string, int))
    requires setting >= 0
    ensures x in Trending(ValidRecords(lines), Threshold(setting, ValidRecords(lines), percentile))
        <==> x in ValidRecords(lines) && x.1 >= setting
  {
    TrendingMembers(ValidRecords(lines), setting as real, x);
  }

  /** No valid records and no setting: the threshold is 0, reported as 0,
      and nothing is emitted. */
  lemma NoRecords(lines: seq<string>, setting: int, percentile: seq<int> -> real)
    requires setting < 0 && ValidRecords(lines) == []
    ensures Threshold(setting, ValidRecords(lines), percentile) == 0.0
    ensures ThresholdReport(0.0) == "reporter:counter:TrendingStats,ThresholdUsed,0"
    ensures Trending(ValidRecords(lines), 0.0) == []
  {
    assert FormatInt(0) == "0";
  }

  /** A line that is not a valid record affects neither the threshold nor
      the output. */
  lemma {:induction false} IgnoredRecord(a: seq<string>, l: string, b: seq<string>)
    requires ReducerRecord(l).None?
    ensures ValidRecords(a + [l] + b) == ValidRecords(a + b)
    decreases |b|
  {
    if b == [] {
      assert a + [l] + b == a + [l];
      assert a + b == a;
      IgnoredLastRecord(a, l);
    } else {
      var b', x := b[..|b| - 1], b[|b| - 1];
      SplitLast(a, l, b);
      IgnoredRecord(a, l, b');
      SameRecordsSnoc(a + [l] + b', a + b', x);
    }
  }

  lemma IgnoredLastRecord(a: seq<string>, l: string)
    requires ReducerRecord(l).None?
    ensures ValidRecords(a + [l]) == ValidRecords(a)
  {
    assert (a + [l])[..|a|] == a;
    assert RecordList(l) == [];
    assert ValidRecords(a + [l]) == ValidRecords(a) + RecordList(l);
  }

  lemma SameRecordsSnoc(p: seq<string>, q: seq<string>, x: string)
    requires ValidRecords(p) == ValidRecords(q)
    ensures ValidRecords(p + [x]) == ValidRecords(q + [x])
  {
    assert (p + [x])[..|p|] == p;
    assert (q + [x])[..|q|] == q;
  }
}

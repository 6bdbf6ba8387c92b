/** Counting into a Python dict, as the mappers and the combiner do with
    `d[k] += w`: each (key, weight) entry adds its weight to its key, a key
    is created on first sight, and iterating the dict visits keys in the
    order they were first seen. */
module Tally {

  /** The keys of the entries in first-seen order (the dict's iteration order). */
  function Order(es: seq<(string, int)>): (r: seq<string>)
    ensures forall i, j :: 0 <= i < j < |r| ==> r[i] != r[j]
    ensures forall k :: k in r <==> exists i :: 0 <= i < |es| && es[i].0 == k
  {
    if es == [] then []
    else
      var prev := Order(es[..|es| - 1]);
      var k := es[|es| - 1].0;
      if k in prev then prev else prev + [k]
  }

  /** The value the dict holds for k: the sum of k's weights. */
  function Total(es: seq<(string, int)>, k: string): int {
    if es == [] then 0
    else Total(es[..|es| - 1], k) + (if es[|es| - 1].0 == k then es[|es| - 1].1 else 0)
  }

  /** The sum of all weights. */
  function SumWeights(es: seq<(string, int)>): int {
    if es == [] then 0 else SumWeights(es[..|es| - 1]) + es[|es| - 1].1
  }

  /** The sum of the totals of the given keys. */
  function SumTotals(ks: seq<string>, es: seq<(string, int)>): int {
    if ks == [] then 0 else Total(es, ks[0]) + SumTotals(ks[1..], es)
  }

  predicate Distinct(ks: seq<string>) {
    forall i, j :: 0 <= i < j < |ks| ==> ks[i] != ks[j]
  }

  /** One more entry changes the sum of totals by its weight if its key is
      counted, and not at all otherwise. */
  lemma {:induction false} SumTotalsStep(ks: seq<string>, es: seq<(string, int)>, e: (string, int))
    requires Distinct(ks)
    ensures SumTotals(ks, es + [e]) == SumTotals(ks, es) + (if e.0 in ks then e.1 else 0)
  {
    if ks != [] {
      assert (es + [e])[..|es|] == es;
      SumTotalsStep(ks[1..], es, e);
      assert e.0 in ks <==> e.0 == ks[0] || e.0 in ks[1..];
    }
  }

  /** Summing the dict's values over any duplicate-free list of keys that
      covers every key gives the sum of all weights: nothing is lost or
      counted twice. */
  lemma {:induction false} SumOfTotals(ks: seq<string>, es: seq<(string, int)>)
    requires Distinct(ks)
    requires forall i :: 0 <= i < |es| ==> es[i].0 in ks
    ensures SumTotals(ks, es) == SumWeights(es)
  {
    if es == [] {
      ZeroTotals(ks, es);
    } else {
      var init := es[..|es| - 1];
      SumOfTotals(ks, init);
      SumTotalsStep(ks, init, es[|es| - 1]);
      assert init + [es[|es| - 1]] == es;
    }
  }

  lemma {:induction false} ZeroTotals(ks: seq<string>, es: seq<(string, int)>)
    requires es == []
    ensures SumTotals(ks, es) == 0
  {
    if ks != [] {
      ZeroTotals(ks[1..], es);
    }
  }

  /** The dict's iteration order lists every key once, so the values it
      emits add up to the sum of all weights. */
  lemma OrderTotals(es: seq<(string, int)>)
    ensures SumTotals(Order(es), es) == SumWeights(es)
  {
    var ks := Order(es);
    forall i | 0 <= i < |es| ensures es[i].0 in ks { }
    SumOfTotals(ks, es);
  }

  /** Adding one entry: the order gains its key if new, and only that key's
      total moves. */
  lemma Step(es: seq<(string, int)>, e: (string, int))
    ensures Order(es + [e]) == if e.0 in Order(es) then Order(es) else Order(es) + [e.0]
    ensures forall k :: Total(es + [e], k) == Total(es, k) + (if e.0 == k then e.1 else 0)
  {
    assert (es + [e])[..|es|] == es;
  }

  /** Entries with pairwise distinct keys are their own dict: the order is
      their keys and each total is the key's single weight. */
  lemma {:induction false} DistinctEntries(es: seq<(string, int)>)
    requires forall i, j :: 0 <= i < j < |es| ==> es[i].0 != es[j].0
    ensures |Order(es)| == |es|
    ensures forall i :: 0 <= i < |es| ==> Order(es)[i] == es[i].0 && Total(es, es[i].0) == es[i].1
  {
    if es != [] {
      var init := es[..|es| - 1];
      DistinctEntries(init);
      var last := es[|es| - 1];
      assert last.0 !in Order(init);
      forall i | 0 <= i < |es| - 1
        ensures Total(es, es[i].0) == es[i].1
      {
        assert Total(es, es[i].0) == Total(init, init[i].0);
      }
      AbsentTotal(init, last.0);
    }
  }

  /** A key never entered has total 0. */
  lemma {:induction false} AbsentTotal(es: seq<(string, int)>, k: string)
    requires k !in Order(es)
    ensures Total(es, k) == 0
  {
    if es != [] {
      var init := es[..|es| - 1];
      assert forall i :: 0 <= i < |init| ==> init[i] == es[i];
      AbsentTotal(init, k);
    }
  }

  /** The state of a counting dict after the entries es: its keys in
      insertion order, and each key's value. */
  ghost predicate Counted(order: seq<string>, d: map<string, int>, es: seq<(string, int)>) {
    && order == Order(es)
    && (forall k :: k in d <==> k in order)
    && (forall k :: k in d ==> d[k] == Total(es, k))
  }

  /** `d[k] += w` on a defaultdict(int) whose keys are listed in insertion
      order: a new key enters with 0 and moves to the end of the order. */
  method Add(order: seq<string>, d: map<string, int>, k: string, w: int, ghost es: seq<(string, int)>)
    returns (order': seq<string>, d': map<string, int>)
    requires Counted(order, d, es)
    ensures Counted(order', d', es + [(k, w)])
  {
    Step(es, (k, w));
    if k in d {
      order', d' := order, d[k := d[k] + w];
    } else {
      AbsentTotal(es, k);
      order', d' := order + [k], d[k := 0 + w];
    }
  }

  /** The order depends on the keys only, not on the weights. */
  lemma {:induction false} OrderSameKeys(es: seq<(string, int)>, fs: seq<(string, int)>)
    requires |es| == |fs|
    requires forall i :: 0 <= i < |es| ==> es[i].0 == fs[i].0
    ensures Order(es) == Order(fs)
  {
    if es != [] {
      OrderSameKeys(es[..|es| - 1], fs[..|fs| - 1]);
    }
  }
}

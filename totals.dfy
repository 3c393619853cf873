/**
 * The invoice totals (`getTotalAmount`, `getTotalVolumeCredits`): a running
 * sum over the performances, in invoice order, that stops at the first
 * performance whose charge or credits cannot be computed.
 */
module Totals {

  import opened Results
  import opened Theater
  import opened Pricing

  /** Which per-performance quantity a total adds up. */
  datatype Measure = ByAmount | ByCredits

  function Measured(m: Measure, t: Tariff, plays: Catalog, perf: Performance): (r: Result<int, Error>) {
    match m
    case ByAmount => Amount(t, plays, perf)
    case ByCredits => VolumeCredits(t, plays, perf)
  }

  /** The total over `perfs`, accumulated from the first performance to the last. */
  function Total(m: Measure, t: Tariff, plays: Catalog, perfs: seq<Performance>): (r: Result<int, Error>)
    decreases |perfs|
  {
    if perfs == [] then Ok(0)
    else
      match Total(m, t, plays, perfs[..|perfs| - 1])
      case Err(e) => Err(e)
      case Ok(sum) =>
        match Measured(m, t, plays, perfs[|perfs| - 1])
        case Err(e) => Err(e)
        case Ok(x) => Ok(sum + x)
  }

  /** An invoice without performances totals zero. */
  lemma TotalOfNothing(m: Measure, t: Tariff, plays: Catalog)
    ensures Total(m, t, plays, []) == Ok(0)
  {
  }

  /** A total exists exactly when every performance's quantity does. */
  lemma {:induction false} TotalDefined(m: Measure, t: Tariff, plays: Catalog, perfs: seq<Performance>)
    ensures Total(m, t, plays, perfs).Ok? <==> forall perf :: perf in perfs ==> Measured(m, t, plays, perf).Ok?
  {
    if perfs != [] {
      var init := perfs[..|perfs| - 1];
      TotalDefined(m, t, plays, init);
      assert perfs == init + [perfs[|perfs| - 1]];
    }
  }

  /** Where a total exists, so does the quantity of each of its performances. */
  lemma {:induction false} TotalDefinedAt(m: Measure, t: Tariff, plays: Catalog, perfs: seq<Performance>, i: nat)
    requires Total(m, t, plays, perfs).Ok? && i < |perfs|
    ensures Measured(m, t, plays, perfs[i]).Ok?
  {
    TotalDefined(m, t, plays, perfs);
    assert perfs[i] in perfs;
  }

  /**
   * A total that cannot be computed fails with the error of the first
   * performance, in invoice order, whose quantity cannot be computed.
   */
  lemma {:induction false} TotalFailsAtFirstFailure(m: Measure, t: Tariff, plays: Catalog, perfs: seq<Performance>, i: nat)
    requires i < |perfs| && Measured(m, t, plays, perfs[i]).Err?
    requires forall j :: 0 <= j < i ==> Measured(m, t, plays, perfs[j]).Ok?
    ensures Total(m, t, plays, perfs) == Measured(m, t, plays, perfs[i])
  {
    var init := perfs[..|perfs| - 1];
    if i == |perfs| - 1 {
      forall perf | perf in init ensures Measured(m, t, plays, perf).Ok? {
        var j :| 0 <= j < |init| && init[j] == perf;
      }
      TotalDefined(m, t, plays, init);
    } else {
      TotalFailsAtFirstFailure(m, t, plays, init, i);
    }
  }

  /** One more performance adds its quantity to the running total. */
  lemma {:induction false} TotalStep(m: Measure, t: Tariff, plays: Catalog, perfs: seq<Performance>, i: nat)
    requires i < |perfs|
    ensures Total(m, t, plays, perfs[..i + 1]) ==
      match Total(m, t, plays, perfs[..i])
      case Err(e) => Err(e)
      case Ok(sum) =>
        match Measured(m, t, plays, perfs[i])
        case Err(e) => Err(e)
        case Ok(x) => Ok(sum + x)
  {
    assert perfs[..i + 1][..i] == perfs[..i];
  }

  /** The total of two invoices put one after the other is the sum of their totals. */
  lemma {:induction false} TotalAppend(m: Measure, t: Tariff, plays: Catalog, p: seq<Performance>, q: seq<Performance>)
    requires Total(m, t, plays, p).Ok? && Total(m, t, plays, q).Ok?
    ensures Total(m, t, plays, p + q) == Ok(Total(m, t, plays, p).value + Total(m, t, plays, q).value)
  {
    if q == [] {
      assert p + q == p;
    } else {
      var init := q[..|q| - 1];
      TotalAppend(m, t, plays, p, init);
      assert (p + q)[..|p + q| - 1] == p + init;
      assert (p + q)[|p + q| - 1] == q[|q| - 1];
    }
  }

  /** The total of one performance is its own quantity. */
  lemma TotalOfOne(m: Measure, t: Tariff, plays: Catalog, perf: Performance)
    ensures Total(m, t, plays, [perf]) == Measured(m, t, plays, perf)
  {
    assert [perf][..0] == [];
  }

  /** A part of a performance list that can be totalled can be totalled too. */
  lemma {:induction false} TotalOfPart(m: Measure, t: Tariff, plays: Catalog, whole: seq<Performance>, part: seq<Performance>)
    requires Total(m, t, plays, whole).Ok?
    requires forall perf :: perf in part ==> perf in whole
    ensures Total(m, t, plays, part).Ok?
  {
    TotalDefined(m, t, plays, whole);
    TotalDefined(m, t, plays, part);
  }

  /**
   * Reordering the performances changes neither whether the total exists nor,
   * when it does, its value: only the order of the statement's lines.
   */
  lemma {:induction false} TotalPermutation(m: Measure, t: Tariff, plays: Catalog, p: seq<Performance>, q: seq<Performance>)
    requires multiset(p) == multiset(q)
    ensures Total(m, t, plays, p).Ok? <==> Total(m, t, plays, q).Ok?
    ensures Total(m, t, plays, p).Ok? ==> Total(m, t, plays, p) == Total(m, t, plays, q)
  {
    assert forall perf :: perf in p <==> perf in multiset(p);
    assert forall perf :: perf in q <==> perf in multiset(q);
    TotalDefined(m, t, plays, p);
    TotalDefined(m, t, plays, q);
    if Total(m, t, plays, p).Ok? {
      TotalPermutationValue(m, t, plays, p, q);
    }
  }

  /** The value half of `TotalPermutation`, by induction on the first list. */
  lemma {:induction false} TotalPermutationValue(m: Measure, t: Tariff, plays: Catalog, p: seq<Performance>, q: seq<Performance>)
    requires multiset(p) == multiset(q)
    requires Total(m, t, plays, p).Ok? && Total(m, t, plays, q).Ok?
    ensures Total(m, t, plays, p) == Total(m, t, plays, q)
    decreases |p|
  {
    if p == [] {
      assert |q| == |multiset(q)| == 0;
    } else {
      var n := |p| - 1;
      var init := p[..n];
      assert p[n] in multiset(q);
      var k :| 0 <= k < |q| && q[k] == p[n];
      var rest := q[..k] + q[k + 1..];
      TotalWithout(m, t, plays, q, k);
      SameRemainder(p, q, k);
      assert forall perf :: perf in init ==> perf in p;
      TotalOfPart(m, t, plays, p, init);
      TotalPermutationValue(m, t, plays, init, rest);
      TotalStep(m, t, plays, p, n);
      assert p[..n + 1] == p;
      assert Total(m, t, plays, p).value == Total(m, t, plays, rest).value + Measured(m, t, plays, q[k]).value;
    }
  }

  /** Taking the last element of one list and an equal element of a permutation of it leaves permutations. */
  lemma SameRemainder<T>(p: seq<T>, q: seq<T>, k: nat)
    requires multiset(p) == multiset(q) && p != []
    requires k < |q| && q[k] == p[|p| - 1]
    ensures multiset(p[..|p| - 1]) == multiset(q[..k] + q[k + 1..])
  {
    var n := |p| - 1;
    var x, init := p[n], p[..n];
    var before, after := q[..k], q[k + 1..];
    assert p == init + [x];
    assert multiset(p) == multiset(init) + multiset{x};
    assert q == before + [x] + after;
    assert multiset(q) == multiset(before) + multiset{x} + multiset(after);
    assert multiset(before + after) == multiset(before) + multiset(after);
    assert multiset(init) + multiset{x} == multiset(before + after) + multiset{x};
    assert multiset(init) == multiset(init) + multiset{x} - multiset{x};
  }

  /** Taking one performance out of a list lowers the total by exactly that performance's quantity. */
  lemma {:induction false} TotalWithout(m: Measure, t: Tariff, plays: Catalog, q: seq<Performance>, k: nat)
    requires k < |q| && Total(m, t, plays, q).Ok?
    ensures Total(m, t, plays, q[..k] + q[k + 1..]).Ok?
    ensures Measured(m, t, plays, q[k]).Ok?
    ensures Total(m, t, plays, q).value ==
      Total(m, t, plays, q[..k] + q[k + 1..]).value + Measured(m, t, plays, q[k]).value
  {
    var before, x, after := q[..k], q[k], q[k + 1..];
    assert q == before + [x] + after;
    TotalOfPart(m, t, plays, q, before);
    TotalOfPart(m, t, plays, q, after);
    TotalOfPart(m, t, plays, q, [x]);
    TotalOfOne(m, t, plays, x);
    TotalAppend(m, t, plays, before, after);
    TotalAppend(m, t, plays, before, [x]);
    TotalAppend(m, t, plays, before + [x], after);
  }

  /** Credits can be totalled exactly when every performance names a play in the catalog. */
  lemma {:induction false} CreditsTotalDefined(t: Tariff, plays: Catalog, perfs: seq<Performance>)
    ensures Total(ByCredits, t, plays, perfs).Ok? <==> forall perf :: perf in perfs ==> perf.playID in plays
  {
    TotalDefined(ByCredits, t, plays, perfs);
  }

  /** Whenever the amount owed can be totalled, so can the credits: the statement never fails on the credits. */
  lemma {:induction false} CreditsTotalDefinedWhenCharged(t: Tariff, plays: Catalog, perfs: seq<Performance>)
    requires Total(ByAmount, t, plays, perfs).Ok?
    ensures Total(ByCredits, t, plays, perfs).Ok?
  {
    TotalDefined(ByAmount, t, plays, perfs);
    TotalDefined(ByCredits, t, plays, perfs);
  }

  /** With a positive comedy factor and no negative audience, the credit total is never negative. */
  lemma {:induction false} CreditsTotalNonNegative(t: Tariff, plays: Catalog, perfs: seq<Performance>)
    requires PositiveCreditFactor(t)
    requires forall perf :: perf in perfs ==> perf.audience >= 0
    requires Total(ByCredits, t, plays, perfs).Ok?
    ensures Total(ByCredits, t, plays, perfs).value >= 0
  {
    if perfs != [] {
      var init := perfs[..|perfs| - 1];
      var last := perfs[|perfs| - 1];
      assert forall perf :: perf in init ==> perf in perfs;
      CreditsTotalNonNegative(t, plays, init);
      CreditsNonNegative(t, plays, last);
    }
  }
}

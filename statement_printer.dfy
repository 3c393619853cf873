/**
 * The statement printer: it holds one invoice, the catalog of plays and the
 * tariff, totals the invoice and lays out the statement. Lines carry the
 * integer cents and counts; turning them into text (the US-dollar format and
 * the line separator) is not part of this model.
 */
module Statements {

  import opened Results
  import opened Theater
  import opened Pricing
  import opened Totals

  /** One line of a statement. */
  datatype Line =
    | Header(customer: string)                           // "Statement for <customer>"
    | Detail(playName: string, amount: int, seats: int)  // "  <play>: <amount> (<seats> seats)"
    | AmountOwed(amount: int)                            // "Amount owed is <amount>"
    | CreditsEarned(credits: int)                        // "You earned <credits> credits"

  /** `line` is the detail line of `perf`: its play's name, its charge and its audience. */
  predicate IsDetailOf(t: Tariff, plays: Catalog, perf: Performance, line: Line) {
    perf.playID in plays &&
    Amount(t, plays, perf).Ok? &&
    line == Detail(plays[perf.playID].name, Amount(t, plays, perf).value, perf.audience)
  }

  /** The sum of the amounts printed on the detail lines among `lines`. */
  function DetailSum(lines: seq<Line>): (r: int) {
    if lines == [] then 0
    else DetailSum(lines[..|lines| - 1]) + (if lines[|lines| - 1].Detail? then lines[|lines| - 1].amount else 0)
  }

  /** Appending a line adds its amount to the detail sum when it is a detail line. */
  lemma {:induction false} DetailSumAppend(lines: seq<Line>, line: Line)
    ensures DetailSum(lines + [line]) == DetailSum(lines) + (if line.Detail? then line.amount else 0)
  {
    assert (lines + [line])[..|lines|] == lines;
  }

  class StatementPrinter {

    const invoice: Invoice
    const plays: Catalog
    const tariff: Tariff

    constructor (invoice: Invoice, plays: Catalog, tariff: Tariff)
      ensures this.invoice == invoice && this.plays == plays && this.tariff == tariff
    {
      this.invoice := invoice;
      this.plays := plays;
      this.tariff := tariff;
    }

    /**
     * The statement: a header naming the customer, one detail line per
     * performance in invoice order, the amount owed and the credits earned.
     * Both totals are computed before any detail line, so an invoice with a
     * performance that cannot be charged yields no statement at all.
     */
    method Statement() returns (r: Result<seq<Line>, Error>)
      ensures r.Err? <==> Total(ByAmount, tariff, plays, invoice.performances).Err?
      ensures r.Err? ==> r.error == Total(ByAmount, tariff, plays, invoice.performances).error
      ensures r.Ok? ==>
        var perfs, lines := invoice.performances, r.value;
        |lines| == |perfs| + 3 &&
        lines[0] == Header(invoice.customer) &&
        (forall i :: 0 <= i < |perfs| ==> IsDetailOf(tariff, plays, perfs[i], lines[i + 1])) &&
        lines[|perfs| + 1] == AmountOwed(Total(ByAmount, tariff, plays, perfs).value) &&
        lines[|perfs| + 1] == AmountOwed(DetailSum(lines[1..|perfs| + 1])) &&
        Total(ByCredits, tariff, plays, perfs).Ok? &&
        lines[|perfs| + 2] == CreditsEarned(Total(ByCredits, tariff, plays, perfs).value)
    {
      var perfs := invoice.performances;
      var totalAmount := GetTotalAmount();
      if totalAmount.Err? {
        return Err(totalAmount.error);
      }
      var volumeCredits := GetTotalVolumeCredits();
      CreditsTotalDefinedWhenCharged(tariff, plays, perfs);
      var details := DetailLines();
      var lines := [Header(invoice.customer)] + details + [AmountOwed(totalAmount.value), CreditsEarned(volumeCredits.value)];
      assert lines[1..|perfs| + 1] == details;
      forall i | 0 <= i < |perfs| ensures IsDetailOf(tariff, plays, perfs[i], lines[i + 1]) {
        assert lines[i + 1] == details[i];
      }
      return Ok(lines);
    }

    /**
     * The loop of `statement`: one detail line per performance, in invoice
     * order. It runs only once the amount owed has been totalled, so every
     * performance can be charged; the detail amounts add up to that total.
     */
    method DetailLines() returns (details: seq<Line>)
      requires Total(ByAmount, tariff, plays, invoice.performances).Ok?
      ensures |details| == |invoice.performances|
      ensures forall i :: 0 <= i < |details| ==> IsDetailOf(tariff, plays, invoice.performances[i], details[i])
      ensures DetailSum(details) == Total(ByAmount, tariff, plays, invoice.performances).value
    {
      var perfs := invoice.performances;
      details := [];
      for i := 0 to |perfs|
        invariant |details| == i
        invariant forall j :: 0 <= j < i ==> IsDetailOf(tariff, plays, perfs[j], details[j])
        invariant Total(ByAmount, tariff, plays, perfs[..i]) == Ok(DetailSum(details))
      {
        var perf := perfs[i];
        TotalDefinedAt(ByAmount, tariff, plays, perfs, i);
        var amount := Amount(tariff, plays, perf).value;
        var line := Detail(plays[perf.playID].name, amount, perf.audience);
        assert IsDetailOf(tariff, plays, perf, line);
        TotalStep(ByAmount, tariff, plays, perfs, i);
        assert Total(ByAmount, tariff, plays, perfs[..i + 1]) == Ok(DetailSum(details) + amount);
        DetailSumAppend(details, line);
        details := details + [line];
      }
      assert perfs[..|perfs|] == perfs;
    }

    /** `getTotalVolumeCredits`: the credits of the performances, added up in invoice order. */
    method GetTotalVolumeCredits() returns (r: Result<int, Error>)
      ensures r == Total(ByCredits, tariff, plays, invoice.performances)
    {
      var perfs := invoice.performances;
      var result := 0;
      for i := 0 to |perfs|
        invariant Total(ByCredits, tariff, plays, perfs[..i]) == Ok(result)
      {
        var credits := VolumeCredits(tariff, plays, perfs[i]);
        if credits.Err? {
          TotalDefined(ByCredits, tariff, plays, perfs[..i]);
          forall j | 0 <= j < i ensures Measured(ByCredits, tariff, plays, perfs[j]).Ok? {
            assert perfs[j] in perfs[..i];
          }
          TotalFailsAtFirstFailure(ByCredits, tariff, plays, perfs, i);
          return Err(credits.error);
        }
        TotalStep(ByCredits, tariff, plays, perfs, i);
        result := result + credits.value;
      }
      assert perfs[..|perfs|] == perfs;
      return Ok(result);
    }

    /** `getTotalAmount`: the charges of the performances, added up in invoice order. */
    method GetTotalAmount() returns (r: Result<int, Error>)
      ensures r == Total(ByAmount, tariff, plays, invoice.performances)
    {
      var perfs := invoice.performances;
      var result := 0;
      for i := 0 to |perfs|
        invariant Total(ByAmount, tariff, plays, perfs[..i]) == Ok(result)
      {
        var amount := Amount(tariff, plays, perfs[i]);
        if amount.Err? {
          TotalDefined(ByAmount, tariff, plays, perfs[..i]);
          forall j | 0 <= j < i ensures Measured(ByAmount, tariff, plays, perfs[j]).Ok? {
            assert perfs[j] in perfs[..i];
          }
          TotalFailsAtFirstFailure(ByAmount, tariff, plays, perfs, i);
          return Err(amount.error);
        }
        TotalStep(ByAmount, tariff, plays, perfs, i);
        result := result + amount.value;
      }
      assert perfs[..|perfs|] == perfs;
      return Ok(result);
    }
  }
}

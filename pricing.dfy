/**
 * The per-performance rules of the statement printer: the charge in cents
 * (`getAmount`) and the volume credits (`getVolumeCredits`).
 */
module Pricing {

  import opened Results
  import opened Theater

  function Abs(x: int): (r: nat) {
    if x < 0 then -x else x
  }

  /** Java's `/` on `int`: the quotient is rounded toward zero, not down. */
  function JavaDiv(a: int, b: int): (q: int)
    requires b != 0
    ensures Abs(q) * Abs(b) <= Abs(a) < (Abs(q) + 1) * Abs(b)
    ensures (a >= 0) == (b > 0) ==> q >= 0
    ensures (a >= 0) != (b > 0) ==> q <= 0
  {
    var q := Abs(a) / Abs(b);
    DivBounds(Abs(a), Abs(b));
    if (a >= 0) == (b > 0) then q else -q
  }

  lemma DivBounds(n: nat, d: nat)
    requires d > 0
    ensures n / d >= 0
    ensures (n / d) * d <= n < (n / d + 1) * d
  {
    var q, r := n / d, n % d;
    assert n == q * d + r;
    assert (q + 1) * d == q * d + d;
  }

  /** The tragedy charge: the base amount, plus a per-person surcharge for every seat above the threshold. */
  function TragedyAmount(t: Tariff, audience: int): (r: int) {
    var result := t.tragedyBaseAmount;
    if audience > t.tragedyAudienceThreshold then
      result + t.tragedyOverBaseCapacityPerPerson * (audience - t.tragedyAudienceThreshold)
    else
      result
  }

  /**
   * The comedy charge: the base amount, plus a fixed surcharge and a per-person
   * surcharge above the threshold, plus a per-audience amount for every seat.
   */
  function ComedyAmount(t: Tariff, audience: int): (r: int) {
    var base := t.comedyBaseAmount;
    var charged := if audience > t.comedyAudienceThreshold then
      base + t.comedyOverBaseCapacityAmount
           + t.comedyOverBaseCapacityPerPerson * (audience - t.comedyAudienceThreshold)
    else
      base;
    charged + t.comedyAmountPerAudience * audience
  }

  /** `getAmount`: the charge for one performance, or why there is none. */
  function Amount(t: Tariff, plays: Catalog, perf: Performance): (r: Result<int, Error>)
    ensures perf.playID !in plays ==> r == Err(UnknownPlay(perf.playID))
    ensures perf.playID in plays ==>
      var ty := plays[perf.playID].playType;
      (r.Err? <==> ty != "tragedy" && ty != "comedy") &&
      (r.Err? ==> r.error == UnknownType(ty))
  {
    match GetPlay(plays, perf)
    case Err(e) => Err(e)
    case Ok(play) =>
      match Classify(play.playType)
      case Tragedy => Ok(TragedyAmount(t, perf.audience))
      case Comedy => Ok(ComedyAmount(t, perf.audience))
      case Other(ty) => Err(UnknownType(ty))
  }

  /** `getVolumeCredits`: the credits for one performance; only the lookup of the play can fail. */
  function VolumeCredits(t: Tariff, plays: Catalog, perf: Performance): (r: Result<int, Error>)
    ensures r.Ok? <==> perf.playID in plays
    ensures r.Err? ==> r.error == UnknownPlay(perf.playID)
  {
    var result := if perf.audience - t.baseVolumeCreditThreshold > 0
                  then perf.audience - t.baseVolumeCreditThreshold else 0;
    match GetPlay(plays, perf)
    case Err(e) => Err(e)
    case Ok(play) =>
      if play.playType == "comedy" then Ok(result + JavaDiv(perf.audience, t.comedyExtraVolumeFactor))
      else Ok(result)
  }

  // ---------------------------------------------------------------------------
  // The charge

  /** A tragedy costs the base amount up to the threshold, and a per-person surcharge for every seat above it. */
  lemma TragedyCharge(t: Tariff, plays: Catalog, perf: Performance)
    requires perf.playID in plays && plays[perf.playID].playType == "tragedy"
    ensures perf.audience <= t.tragedyAudienceThreshold ==>
      Amount(t, plays, perf) == Ok(t.tragedyBaseAmount)
    ensures perf.audience > t.tragedyAudienceThreshold ==>
      Amount(t, plays, perf) == Ok(t.tragedyBaseAmount +
        t.tragedyOverBaseCapacityPerPerson * (perf.audience - t.tragedyAudienceThreshold))
  {
  }

  /**
   * A comedy costs the base amount and the per-audience amount for every seat;
   * above the threshold the fixed and per-person surcharges come on top.
   */
  lemma ComedyCharge(t: Tariff, plays: Catalog, perf: Performance)
    requires perf.playID in plays && plays[perf.playID].playType == "comedy"
    ensures perf.audience <= t.comedyAudienceThreshold ==>
      Amount(t, plays, perf) == Ok(t.comedyBaseAmount + t.comedyAmountPerAudience * perf.audience)
    ensures perf.audience > t.comedyAudienceThreshold ==>
      Amount(t, plays, perf) == Ok(t.comedyBaseAmount + t.comedyOverBaseCapacityAmount +
        t.comedyOverBaseCapacityPerPerson * (perf.audience - t.comedyAudienceThreshold) +
        t.comedyAmountPerAudience * perf.audience)
  {
  }

  /** At or below the threshold the surcharges vanish: the charge does not depend on the play type's surcharge rates. */
  lemma NoSurchargeAtOrBelowThreshold(t: Tariff, t': Tariff, plays: Catalog, perf: Performance)
    requires t' == t.(tragedyOverBaseCapacityPerPerson := t'.tragedyOverBaseCapacityPerPerson,
                      comedyOverBaseCapacityAmount := t'.comedyOverBaseCapacityAmount,
                      comedyOverBaseCapacityPerPerson := t'.comedyOverBaseCapacityPerPerson)
    requires perf.playID in plays
    requires plays[perf.playID].playType == "tragedy" ==> perf.audience <= t.tragedyAudienceThreshold
    requires plays[perf.playID].playType == "comedy" ==> perf.audience <= t.comedyAudienceThreshold
    ensures Amount(t, plays, perf) == Amount(t', plays, perf)
  {
  }

  /** With non-negative rates, a larger audience never costs less for the same play. */
  lemma {:induction false} AmountMonotone(t: Tariff, plays: Catalog, perf: Performance, more: int)
    requires NonNegativeChargeRates(t)
    requires perf.audience <= more
    requires Amount(t, plays, perf).Ok?
    ensures Amount(t, plays, perf.(audience := more)).Ok?
    ensures Amount(t, plays, perf).value <= Amount(t, plays, perf.(audience := more)).value
  {
    var a, b := perf.audience, more;
    var ty := plays[perf.playID].playType;
    if ty == "tragedy" {
      var thr, pp := t.tragedyAudienceThreshold, t.tragedyOverBaseCapacityPerPerson;
      if a > thr {
        MulMonotone(pp, a - thr, b - thr);
      } else if b > thr {
        MulMonotone(pp, 0, b - thr);
      }
    } else {
      var thr, pp := t.comedyAudienceThreshold, t.comedyOverBaseCapacityPerPerson;
      MulMonotone(t.comedyAmountPerAudience, a, b);
      if a > thr {
        MulMonotone(pp, a - thr, b - thr);
      } else if b > thr {
        MulMonotone(pp, 0, b - thr);
      }
    }
  }

  lemma MulMonotone(k: int, x: int, y: int)
    requires k >= 0 && x <= y
    ensures k * x <= k * y
  {
    assert k * y - k * x == k * (y - x);
  }

  /** With non-negative rates and a non-negative audience, a performance costs at least its type's base amount. */
  lemma AmountAtLeastBase(t: Tariff, plays: Catalog, perf: Performance)
    requires NonNegativeChargeRates(t) && perf.audience >= 0
    requires Amount(t, plays, perf).Ok?
    ensures plays[perf.playID].playType == "tragedy" ==> Amount(t, plays, perf).value >= t.tragedyBaseAmount
    ensures plays[perf.playID].playType == "comedy" ==> Amount(t, plays, perf).value >= t.comedyBaseAmount
  {
    AmountMonotone(t, plays, perf.(audience := 0), perf.audience);
  }

  // ---------------------------------------------------------------------------
  // The credits

  /**
   * The credits are the seats above the credit threshold (never fewer than
   * zero), plus, for a comedy only, the audience divided by the comedy factor.
   */
  lemma CreditsFormula(t: Tariff, plays: Catalog, perf: Performance)
    requires perf.playID in plays
    ensures var base := if perf.audience > t.baseVolumeCreditThreshold
                        then perf.audience - t.baseVolumeCreditThreshold else 0;
      VolumeCredits(t, plays, perf) ==
        if plays[perf.playID].playType == "comedy"
        then Ok(base + JavaDiv(perf.audience, t.comedyExtraVolumeFactor))
        else Ok(base)
  {
  }

  /** A non-negative audience earns non-negative credits, whatever the play's type. */
  lemma CreditsNonNegative(t: Tariff, plays: Catalog, perf: Performance)
    requires PositiveCreditFactor(t) && perf.audience >= 0
    requires perf.playID in plays
    ensures VolumeCredits(t, plays, perf).Ok? && VolumeCredits(t, plays, perf).value >= 0
  {
  }

  /** Whenever a performance can be charged, its credits can be computed too. */
  lemma CreditsDefinedWhenCharged(t: Tariff, plays: Catalog, perf: Performance)
    requires Amount(t, plays, perf).Ok?
    ensures VolumeCredits(t, plays, perf).Ok?
  {
  }

  // ---------------------------------------------------------------------------
  // The worked examples

  /** Hamlet, a tragedy, before 55 people: 40000 + 1000 * 25 cents and 25 credits. */
  lemma HamletExample()
    ensures var plays := map["hamlet" := Play("Hamlet", "tragedy")];
      var perf := Performance("hamlet", 55);
      Amount(ExampleTariff, plays, perf) == Ok(65000) &&
      VolumeCredits(ExampleTariff, plays, perf) == Ok(25)
  {
  }

  /** As You Like It, a comedy, before 35 people: 30000 + 10000 + 500 * 15 + 300 * 35 cents and 5 + 7 credits. */
  lemma AsYouLikeItExample()
    ensures var plays := map["as-like" := Play("As You Like It", "comedy")];
      var perf := Performance("as-like", 35);
      Amount(ExampleTariff, plays, perf) == Ok(58000) &&
      VolumeCredits(ExampleTariff, plays, perf) == Ok(12)
  {
  }
}

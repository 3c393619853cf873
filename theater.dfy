/**
 * The data a statement is computed from: plays, performances, the invoice,
 * the catalog that maps play ids to plays, and the tariff (the constants the
 * pricing and credit rules use).
 */
module Theater {

  import opened Results

  /** A play: its display name and its type ("tragedy", "comedy", or anything else). */
  datatype Play = Play(name: string, playType: string)

  /** One performance of a play, referring to the play by its id in the catalog. */
  datatype Performance = Performance(playID: string, audience: int)

  /** A customer's invoice; the order of the performances is the order of the statement's lines. */
  datatype Invoice = Invoice(customer: string, performances: seq<Performance>)

  /** The plays known to the printer, by id. */
  type Catalog = map<string, Play>

  /** The two ways a statement can fail. */
  datatype Error =
    | UnknownPlay(playID: string)    // the performance names a play id the catalog does not hold
    | UnknownType(playType: string)  // the play's type is neither "tragedy" nor "comedy"

  /** The pricing rules distinguish exactly two play types; every other type string is `Other`. */
  datatype PlayType = Tragedy | Comedy | Other(name: string)

  function Classify(playType: string): (k: PlayType)
    ensures k == Tragedy <==> playType == "tragedy"
    ensures k == Comedy <==> playType == "comedy"
    ensures k.Other? ==> k.name == playType
  {
    if playType == "tragedy" then Tragedy
    else if playType == "comedy" then Comedy
    else Other(playType)
  }

  /** The play a performance refers to; a play id missing from the catalog is an error. */
  function GetPlay(plays: Catalog, perf: Performance): (r: Result<Play, Error>)
    ensures r.Ok? <==> perf.playID in plays
    ensures r.Ok? ==> r.value == plays[perf.playID]
    ensures r.Err? ==> r.error == UnknownPlay(perf.playID)
  {
    if perf.playID in plays then Ok(plays[perf.playID]) else Err(UnknownPlay(perf.playID))
  }

  /** The amounts (in cents), thresholds and factors of the pricing and credit rules. */
  datatype TariffTable = TariffTable(
    tragedyBaseAmount: int,
    tragedyAudienceThreshold: int,
    tragedyOverBaseCapacityPerPerson: int,
    comedyBaseAmount: int,
    comedyAudienceThreshold: int,
    comedyOverBaseCapacityAmount: int,
    comedyOverBaseCapacityPerPerson: int,
    comedyAmountPerAudience: int,
    baseVolumeCreditThreshold: int,
    comedyExtraVolumeFactor: int)

  /** A usable tariff divides by a non-zero comedy credit factor. */
  type Tariff = t: TariffTable | t.comedyExtraVolumeFactor != 0
    witness TariffTable(0, 0, 0, 0, 0, 0, 0, 0, 0, 1)

  /** The tariff of the worked examples: the classic theater-company rates. */
  const ExampleTariff: Tariff := TariffTable(
    tragedyBaseAmount := 40000,
    tragedyAudienceThreshold := 30,
    tragedyOverBaseCapacityPerPerson := 1000,
    comedyBaseAmount := 30000,
    comedyAudienceThreshold := 20,
    comedyOverBaseCapacityAmount := 10000,
    comedyOverBaseCapacityPerPerson := 500,
    comedyAmountPerAudience := 300,
    baseVolumeCreditThreshold := 30,
    comedyExtraVolumeFactor := 5)

  /** Every surcharge and per-seat rate of the charge rules is non-negative. */
  predicate NonNegativeChargeRates(t: Tariff) {
    t.tragedyOverBaseCapacityPerPerson >= 0 &&
    t.comedyOverBaseCapacityAmount >= 0 &&
    t.comedyOverBaseCapacityPerPerson >= 0 &&
    t.comedyAmountPerAudience >= 0
  }

  /** The comedy credit bonus divides by a positive factor. */
  predicate PositiveCreditFactor(t: Tariff) {
    t.comedyExtraVolumeFactor > 0
  }
}

# Theater statement printer, modelled in Dafny

This project models the pricing and loyalty-credit engine of a theater company's
statement printer. A `StatementPrinter` holds a customer's invoice (an ordered list of
performances, each a play id and an audience size), a catalog mapping play ids to plays
(a name and a type), and the tariff. From these it computes:

- the charge in cents for each performance. Tragedies and comedies have their own base
  amount, audience threshold and surcharges. Any other play type is an error that
  carries the type string.
- the volume credits for each performance. These are the seats above the credit
  threshold, plus a bonus for comedies only.
- the two invoice totals. Each is a running sum in invoice order.
- the statement. This is a header, one detail line per performance in invoice order,
  the amount owed and the credits earned. Both totals are computed before any detail
  line. So if any performance cannot be charged, the whole statement fails.

Files:

- `results.dfy`: the `Result` type (a value or an error).
- `theater.dfy`: plays, performances, the invoice, the catalog, the two errors, the
  classification of play types, the catalog lookup and the tariff.
- `pricing.dfy`: the per-performance charge and credits, and their properties.
- `totals.dfy`: the invoice totals as one specification function over a `Measure`
  (charge or credits), and their properties. These cover existence, the first error,
  appending and reordering.
- `statement_printer.dfy`: the `StatementPrinter` class. Its loops are proved against
  `Total`, and the statement's layout is stated in full.

The tariff constants live in a `Constants` class that is not part of this model. They are
a `Tariff` record handed to the printer. `ExampleTariff` holds the rates of the worked
examples. The invoice class is not part of this model either. It is the datatype
`Invoice(customer, performances)`.

The model follows the code:

- A play id missing from the catalog is the error `UnknownPlay(id)`. In the code,
  `getPlay` returns `null` (`Map.get`) and the first use of the play throws a null
  pointer exception. The model keeps when the failure happens, not the exception's
  class.
- The audience is a Java `int` that nothing validates. It is an `int` here, not a `nat`.
  The comedy credit bonus uses Java's `/`, which rounds toward zero (`JavaDiv`): for
  negative audiences this is not floor division.
- Credit computation only checks that the play exists. It never rejects an unknown play
  type.

## Model

| member | source | states |
|---|---|---|
| Theater.GetPlay | src/main/java/theater/StatementPrinter.java:62-64 | the lookup succeeds exactly when the play id is in the catalog, and then yields that play; otherwise the error names the missing id |
| Theater.Classify | src/main/java/theater/StatementPrinter.java:77-101 | a type string is a tragedy exactly when it is "tragedy", a comedy exactly when it is "comedy", and otherwise is "other" and keeps the string |
| Pricing.JavaDiv | src/main/java/theater/StatementPrinter.java:120-121 | Java integer division: the quotient is the largest whole number of divisors within the dividend's magnitude, with the sign rounded toward zero |
| Pricing.Amount | src/main/java/theater/StatementPrinter.java:73-105 | an unknown play id fails with that id; a known play fails exactly when its type is neither "tragedy" nor "comedy", and then with that type string; no amount is produced on failure |
| Pricing.TragedyCharge | src/main/java/theater/StatementPrinter.java:78-86 | a tragedy at or below the threshold costs exactly the base amount; above it, base + per-person rate × seats over the threshold |
| Pricing.ComedyCharge | src/main/java/theater/StatementPrinter.java:87-98 | a comedy costs base + per-audience rate × audience at or below the threshold; above it, the fixed surcharge and per-person rate × seats over the threshold are added, and the per-audience term stays |
| Pricing.NoSurchargeAtOrBelowThreshold | src/main/java/theater/StatementPrinter.java:80-95 | at or below its type's threshold, a performance's charge does not depend on any surcharge rate |
| Pricing.AmountMonotone | src/main/java/theater/StatementPrinter.java:77-98 | with non-negative rates, raising the audience of a chargeable performance never lowers its charge |
| Pricing.AmountAtLeastBase | src/main/java/theater/StatementPrinter.java:77-98 | with non-negative rates and audience, a tragedy costs at least the tragedy base and a comedy at least the comedy base |
| Pricing.VolumeCredits | src/main/java/theater/StatementPrinter.java:113-125 | credits exist exactly when the play id is in the catalog, whatever the play type; otherwise the error names the id |
| Pricing.CreditsFormula | src/main/java/theater/StatementPrinter.java:113-125 | credits are max(audience − threshold, 0), plus audience / factor (rounded toward zero) only when the type is "comedy" |
| Pricing.CreditsNonNegative | src/main/java/theater/StatementPrinter.java:113-125 | a non-negative audience earns non-negative credits for any play type |
| Pricing.CreditsDefinedWhenCharged | src/main/java/theater/StatementPrinter.java:113-119 | every performance that can be charged also has credits |
| Pricing.HamletExample | src/main/java/theater/StatementPrinter.java:78-125 | with the example rates, Hamlet before 55 people costs 65000 cents and earns 25 credits |
| Pricing.AsYouLikeItExample | src/main/java/theater/StatementPrinter.java:87-125 | with the example rates, As You Like It before 35 people costs 58000 cents and earns 12 credits |
| Totals.TotalOfNothing | src/main/java/theater/StatementPrinter.java:145-151 | an invoice with no performances totals 0, for the charges and for the credits |
| Totals.TotalDefined | src/main/java/theater/StatementPrinter.java:132-151 | a total exists exactly when every performance's charge (or credits) exists |
| Totals.TotalFailsAtFirstFailure | src/main/java/theater/StatementPrinter.java:145-151 | a failing total fails with the error of the first performance, in invoice order, that cannot be computed |
| Totals.TotalAppend | src/main/java/theater/StatementPrinter.java:145-151 | the total of two performance lists joined together is the sum of their totals |
| Totals.TotalPermutation | src/main/java/theater/StatementPrinter.java:132-151 | reordering the performances changes neither whether a total exists nor its value |
| Totals.TotalPermutationValue | src/main/java/theater/StatementPrinter.java:132-151 | two totals that exist over permutations of one another are equal |
| Totals.CreditsTotalDefined | src/main/java/theater/StatementPrinter.java:132-138 | the credit total exists exactly when every performance's play id is in the catalog |
| Totals.CreditsTotalDefinedWhenCharged | src/main/java/theater/StatementPrinter.java:36-37 | once the amount owed has been totalled, the credit total cannot fail |
| Totals.CreditsTotalNonNegative | src/main/java/theater/StatementPrinter.java:132-138 | with a positive comedy factor and no negative audience, the credit total is non-negative |
| Statements.StatementPrinter.constructor | src/main/java/theater/StatementPrinter.java:21-24 | the printer keeps the invoice, the catalog and the tariff it is given |
| Statements.StatementPrinter.DetailLines | src/main/java/theater/StatementPrinter.java:39-45 | once the amount owed exists, the loop yields one detail line per performance in invoice order, each with that performance's play name, charge and audience, and the detail amounts add up to the amount owed |
| Statements.StatementPrinter.GetTotalAmount | src/main/java/theater/StatementPrinter.java:145-151 | the loop's result is the total charge over the invoice; its invariant is that the running sum is the total over the performances seen so far; it fails with the first failing performance's error |
| Statements.StatementPrinter.GetTotalVolumeCredits | src/main/java/theater/StatementPrinter.java:132-138 | the loop's result is the total credits over the invoice, with the same prefix invariant |
| Statements.StatementPrinter.Statement | src/main/java/theater/StatementPrinter.java:32-54 | the statement fails exactly when the amount total fails, with its error. On success it has 1 + performances + 2 lines: the header naming the customer, then for each performance in order its play name, charge and audience, then the amount owed (equal to the sum of the detail amounts), then the credit total |

## Left out

- `usd`: currency formatting goes through floating point and the JDK's locale-dependent
  `NumberFormat`. Lines carry integer cents instead of formatted text.
- Line separators (`System.lineSeparator()`, `%n`) belong to the platform. The statement
  is a sequence of lines, not one string.
- Java's 32-bit `int` overflow in `+=` and `*`: all arithmetic here is unbounded.
- The exception classes: a missing play is `UnknownPlay(id)`, where the code throws a
  null pointer exception. An unknown type is `UnknownType(type)`, where the code throws a
  `RuntimeException` whose message is "unknown type: " followed by the type. The message
  text is not modelled.
- A comedy credit factor of zero: the `Tariff` type excludes it. In the code, a zero
  factor throws an arithmetic exception, and only when a comedy's credits are computed.
- A `null` play type or customer: Dafny strings cannot be null.

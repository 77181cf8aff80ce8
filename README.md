# Booking currency amounts evaluator, in Dafny

This project models `BookingsCurrencyAmountsEvaluator`. It totals the bookings of one invoice recipient and keeps those totals in three result slots:
- the gross amount (`totalAmount`);
- the paid amount (`totalPaidAmount`);
- the open amount (`totalOpenAmount`).

A booking is relevant when both of these hold:
- it belongs to the given recipient;
- it is not zero, meaning its gross and paid amounts are not both 0.

If the relevant bookings use two currencies, `calculate` raises `InconsistentCurrenciesException`. Otherwise each slot gets the exact sum of its figure over the relevant bookings, tagged with their one currency. Every call first resets all three slots to `null`.

Files:
- `options.dfy`: `Option`, which stands for a nullable reference.
- `bookings.dfy`: the external values the evaluator reads (`Booking`, `CurrencyAmount`), the figure selector, and the string ordering of a sorted set.
- `sequences.dfy`: the stream stages as functions over sequences (`filter`, `distinct`, `limit`, `reduce`), with reference definitions and lemmas.
- `evaluator.dfy`: `filterBookings`, `getDistinctCurrencies`, `containsMultipleCurrencies`, and the map-reduce of `sum`, all as functions. `Evaluate` is the functional specification of `calculate`. The class `BookingsCurrencyAmountsEvaluator` holds the three slots; its methods update them in place and are proved against `Evaluate`.
- `evaluator_examples.dfy`: the unit-test scenarios, stated as lemmas and as client methods.

How the Java maps onto Dafny:
- Amounts are `real`: exact rationals stand for `BigDecimal` and are compared by value.
- `calculate` returns an `Outcome` instead of throwing: either `Ok` or `InconsistentCurrencies(first, second)`.
- `sum` takes one `Field` argument where the Java takes a plucker and a setter. The source only ever passes the three matching pairs (lines 95-101).

## Model

| member | source | states |
|---|---|---|
| Bookings.Booking.IsZero | src/main/java/io/github/samasend/lambdalogic/test/booking/BookingsCurrencyAmountsEvaluator.java:67 | the zero test the second filter negates: gross and paid both 0; a definition, whose use is stated by FilterBookings and ZeroBookingIgnored |
| Bookings.Pluck | src/main/java/io/github/samasend/lambdalogic/test/booking/BookingsCurrencyAmountsEvaluator.java:95-101 | selects a booking's gross, paid or open figure, the three pluckers that `calculate` passes to `sum`; a definition, whose use is stated by Plucked and SumAmount |
| Bookings.StringLessTrichotomy | src/main/java/io/github/samasend/lambdalogic/test/booking/BookingsCurrencyAmountsEvaluator.java:190 | the ordering that sorts the currency set is irreflexive, and exactly one of two different strings comes first |
| Bookings.StringLessTransitive | src/main/java/io/github/samasend/lambdalogic/test/booking/BookingsCurrencyAmountsEvaluator.java:190 | the ordering is transitive, so with the lemma above it is a strict total order |
| Sequences.Filter | src/main/java/io/github/samasend/lambdalogic/test/booking/BookingsCurrencyAmountsEvaluator.java:153-163 | a filtered stream keeps exactly the elements of the input that pass the predicate, and is never longer than the input |
| Sequences.FilterAppend | src/main/java/io/github/samasend/lambdalogic/test/booking/BookingsCurrencyAmountsEvaluator.java:153-163 | filtering a concatenation is the concatenation of the filtered parts, so relative order is kept |
| Sequences.FilterFuse | src/main/java/io/github/samasend/lambdalogic/test/booking/BookingsCurrencyAmountsEvaluator.java:156-160 | two chained filters keep exactly what one filter by the conjunction keeps |
| Sequences.FilterCommutes | src/main/java/io/github/samasend/lambdalogic/test/booking/BookingsCurrencyAmountsEvaluator.java:156-160 | the order of the recipient filter and the zero filter does not change the result |
| Sequences.DistinctFrom | src/main/java/io/github/samasend/lambdalogic/test/booking/BookingsCurrencyAmountsEvaluator.java:184 | `distinct()` yields every value of the stream not seen before, and each value once |
| Sequences.Distinct | src/main/java/io/github/samasend/lambdalogic/test/booking/BookingsCurrencyAmountsEvaluator.java:184 | `distinct()` holds exactly the values of the stream, each once |
| Sequences.DistinctFromHead | src/main/java/io/github/samasend/lambdalogic/test/booking/BookingsCurrencyAmountsEvaluator.java:184 | the first value `distinct()` yields is the first element not yet seen, and every element before it was already seen |
| Sequences.DistinctFirstTwo | src/main/java/io/github/samasend/lambdalogic/test/booking/BookingsCurrencyAmountsEvaluator.java:184-187 | the two values that `distinct().limit(2)` keeps are the first element and the first element that differs from it |
| Sequences.Take | src/main/java/io/github/samasend/lambdalogic/test/booking/BookingsCurrencyAmountsEvaluator.java:187 | `limit(n)` keeps the first n elements, or all of them when there are fewer, in order |
| Sequences.FoldLeft | src/main/java/io/github/samasend/lambdalogic/test/booking/BookingsCurrencyAmountsEvaluator.java:233 | the left fold of exact addition equals the accumulator plus the reference sum of the rest |
| Sequences.Reduce | src/main/java/io/github/samasend/lambdalogic/test/booking/BookingsCurrencyAmountsEvaluator.java:233 | `reduce(BigDecimal::add)` is absent exactly when the stream is empty; otherwise it is the exact sum |
| Sequences.SeqSumAppend | src/main/java/io/github/samasend/lambdalogic/test/booking/BookingsCurrencyAmountsEvaluator.java:233 | the reference sum of a concatenation is the sum of the parts' sums |
| Evaluator.FilterBookings | src/main/java/io/github/samasend/lambdalogic/test/booking/BookingsCurrencyAmountsEvaluator.java:152-164 | the filtered list holds exactly the bookings of the recipient that are not zero, and no others |
| Evaluator.FilterBookingsSinglePass | src/main/java/io/github/samasend/lambdalogic/test/booking/BookingsCurrencyAmountsEvaluator.java:156-160 | the two filters equal one pass by relevance, and equal the two filters applied in the other order |
| Evaluator.FilterBookingsAppend | src/main/java/io/github/samasend/lambdalogic/test/booking/BookingsCurrencyAmountsEvaluator.java:152-164 | filtering distributes over concatenation of the booking list |
| Evaluator.Currencies | src/main/java/io/github/samasend/lambdalogic/test/booking/BookingsCurrencyAmountsEvaluator.java:181 | `map(Booking::getCurrency)`: one currency per booking, in order, so every booking's currency occurs |
| Evaluator.SortedSet | src/main/java/io/github/samasend/lambdalogic/test/booking/BookingsCurrencyAmountsEvaluator.java:190 | a sorted set of at most two distinct currencies has the same members as the values found, in strictly ascending order |
| Evaluator.GetDistinctCurrencies | src/main/java/io/github/samasend/lambdalogic/test/booking/BookingsCurrencyAmountsEvaluator.java:177-191 | at most two currencies, each used by some booking; empty only for an empty list; two exactly when two bookings differ in currency, and then distinct and in ascending order; one means every booking uses that currency |
| Evaluator.ContainsMultipleCurrencies | src/main/java/io/github/samasend/lambdalogic/test/booking/BookingsCurrencyAmountsEvaluator.java:199-201 | on a set of currencies, true exactly when two of its members differ |
| Evaluator.Plucked | src/main/java/io/github/samasend/lambdalogic/test/booking/BookingsCurrencyAmountsEvaluator.java:230 | `map(plucker)`: one figure per booking, the i-th being the i-th booking's figure |
| Evaluator.SumAmount | src/main/java/io/github/samasend/lambdalogic/test/booking/BookingsCurrencyAmountsEvaluator.java:227-238 | the map-reduce of `sum`: absent on an empty list, otherwise the exact sum of the plucked figures tagged with the currency |
| Evaluator.FilteredSumIsRelevantTotal | src/main/java/io/github/samasend/lambdalogic/test/booking/BookingsCurrencyAmountsEvaluator.java:222-239 | the summed figure over the filtered list equals the exact total of that figure over the relevant bookings of the caller's list |
| Evaluator.EvaluateFiltered | src/main/java/io/github/samasend/lambdalogic/test/booking/BookingsCurrencyAmountsEvaluator.java:79-101 | on the filtered list: empty gives Ok with null slots; two currencies give the sorted pair of two co-occurring currencies with null slots; otherwise all bookings share the first booking's currency and each slot holds the exact sum of its figure in that currency |
| Evaluator.Evaluate | src/main/java/io/github/samasend/lambdalogic/test/booking/BookingsCurrencyAmountsEvaluator.java:71-102 | stated on the caller's list: no relevant booking gives Ok with all slots null; an inconsistency is raised exactly when two relevant bookings differ in currency, and then the two distinct, sorted, co-occurring currencies are reported and all slots stay null; otherwise gross, paid and open are the exact totals over the relevant bookings, in the one currency they all share; the slots always hold all or nothing, in one currency |
| Evaluator.ForeignRecipientIgnored | src/main/java/io/github/samasend/lambdalogic/test/booking/BookingsCurrencyAmountsEvaluator.java:156 | inserting a booking of another recipient, in any currency, changes neither the outcome nor any total |
| Evaluator.ZeroBookingIgnored | src/main/java/io/github/samasend/lambdalogic/test/booking/BookingsCurrencyAmountsEvaluator.java:160 | inserting a booking whose gross and paid amounts are both 0, in any currency, changes neither the outcome nor any total |
| Evaluator.IrrelevantBookingIgnored | src/main/java/io/github/samasend/lambdalogic/test/booking/BookingsCurrencyAmountsEvaluator.java:152-164 | an irrelevant booking disappears from the filtered list wherever it stands |
| Evaluator.InconsistentPairIsFirstTwoDistinct | src/main/java/io/github/samasend/lambdalogic/test/booking/BookingsCurrencyAmountsEvaluator.java:84-88 | the reported pair is the first relevant booking's currency and the first relevant currency that differs from it, in list order |
| Evaluator.FilteredPairIsFirstTwoDistinct | src/main/java/io/github/samasend/lambdalogic/test/booking/BookingsCurrencyAmountsEvaluator.java:177-191 | the same, on the filtered list |
| Evaluator.RelevantTotalAppend | src/main/java/io/github/samasend/lambdalogic/test/booking/BookingsCurrencyAmountsEvaluator.java:222-239 | the total over a concatenated list is the sum of the totals over its parts |
| Evaluator.EvaluateSplit | src/main/java/io/github/samasend/lambdalogic/test/booking/BookingsCurrencyAmountsEvaluator.java:95-101 | when a calculation over a list split into two parts with relevant bookings succeeds, each part succeeds in the same currency, and each of the whole's three totals is the sum of the parts' totals |
| Evaluator.BalancedOpenTotal | src/main/java/io/github/samasend/lambdalogic/test/booking/BookingsCurrencyAmountsEvaluator.java:98-101 | the open total is the sum of the bookings' own open figures; when every relevant booking's open figure is its gross minus its paid figure, the open total is the gross total minus the paid total |
| Evaluator.BookingsCurrencyAmountsEvaluator.constructor | src/main/java/io/github/samasend/lambdalogic/test/booking/BookingsCurrencyAmountsEvaluator.java:36-48 | a new evaluator has all three slots null |
| Evaluator.BookingsCurrencyAmountsEvaluator.Calculate | src/main/java/io/github/samasend/lambdalogic/test/booking/BookingsCurrencyAmountsEvaluator.java:71-102 | the outcome and the three slots afterwards are those of `Evaluate` on the arguments, whatever the slots held before, and the slots are consistent |
| Evaluator.BookingsCurrencyAmountsEvaluator.ResetAllFields | src/main/java/io/github/samasend/lambdalogic/test/booking/BookingsCurrencyAmountsEvaluator.java:107-111 | all three slots become null |
| Evaluator.BookingsCurrencyAmountsEvaluator.SetTotalAmount | src/main/java/io/github/samasend/lambdalogic/test/booking/BookingsCurrencyAmountsEvaluator.java:118-120 | the gross slot takes the value, the others are unchanged |
| Evaluator.BookingsCurrencyAmountsEvaluator.SetTotalPaidAmount | src/main/java/io/github/samasend/lambdalogic/test/booking/BookingsCurrencyAmountsEvaluator.java:127-129 | the paid slot takes the value, the others are unchanged |
| Evaluator.BookingsCurrencyAmountsEvaluator.SetTotalOpenAmount | src/main/java/io/github/samasend/lambdalogic/test/booking/BookingsCurrencyAmountsEvaluator.java:136-138 | the open slot takes the value, the others are unchanged |
| Evaluator.BookingsCurrencyAmountsEvaluator.Sum | src/main/java/io/github/samasend/lambdalogic/test/booking/BookingsCurrencyAmountsEvaluator.java:222-239 | on a non-empty list, only the selected figure's slot changes, and it holds the exact sum with the given currency; an empty list changes nothing |
| Evaluator.BookingsCurrencyAmountsEvaluator.GetTotalAmount | src/main/java/io/github/samasend/lambdalogic/test/booking/BookingsCurrencyAmountsEvaluator.java:248-250 | returns the gross slot as the last calculation left it |
| Evaluator.BookingsCurrencyAmountsEvaluator.GetTotalPaidAmount | src/main/java/io/github/samasend/lambdalogic/test/booking/BookingsCurrencyAmountsEvaluator.java:259-261 | returns the paid slot as the last calculation left it |
| Evaluator.BookingsCurrencyAmountsEvaluator.GetTotalOpenAmount | src/main/java/io/github/samasend/lambdalogic/test/booking/BookingsCurrencyAmountsEvaluator.java:270-272 | returns the open slot as the last calculation left it |
| EvaluatorExamples.InconsistentCurrenciesReported | src/test/java/io/github/samasend/lambdalogic/test/booking/BookingsCurrencyAmountsEvaluatorTest.java:27-35 | relevant bookings in ETB and USD give InconsistentCurrencies("ETB", "USD") with all slots null |
| EvaluatorExamples.TwoCurrencies | src/main/java/io/github/samasend/lambdalogic/test/booking/BookingsCurrencyAmountsEvaluator.java:84-88 | relevant bookings in exactly two currencies, both used, make the calculation fail naming the two in ascending order, with all slots null |
| EvaluatorExamples.OtherRecipientIgnored | src/test/java/io/github/samasend/lambdalogic/test/booking/BookingsCurrencyAmountsEvaluatorTest.java:37-45 | an ETB booking of recipient 10002 next to a USD booking of 10001 gives the USD totals alone |
| EvaluatorExamples.ZeroBookingInOtherCurrencyIgnored | src/test/java/io/github/samasend/lambdalogic/test/booking/BookingsCurrencyAmountsEvaluatorTest.java:47-55 | a zero USD booking next to an ETB booking gives the ETB totals alone |
| EvaluatorExamples.EmptyListGivesNoTotals | src/test/java/io/github/samasend/lambdalogic/test/booking/BookingsCurrencyAmountsEvaluatorTest.java:57-64 | an empty list gives Ok with all slots null |
| EvaluatorExamples.NoRoundingDrift | src/test/java/io/github/samasend/lambdalogic/test/booking/BookingsCurrencyAmountsEvaluatorTest.java:82-109 | ten bookings of gross 0.119 total exactly 1.19 gross, 0 paid and 1.19 open |
| EvaluatorExamples.OneCurrencyTotals | src/main/java/io/github/samasend/lambdalogic/test/booking/BookingsCurrencyAmountsEvaluator.java:92-101 | a list in one currency with a relevant booking gives Ok and the three relevant totals in that currency |
| EvaluatorExamples.ThreeTotal | src/main/java/io/github/samasend/lambdalogic/test/booking/BookingsCurrencyAmountsEvaluator.java:222-239 | the total of one figure over three relevant bookings is the sum of their three figures |
| EvaluatorExamples.ConstantTotal | src/main/java/io/github/samasend/lambdalogic/test/booking/BookingsCurrencyAmountsEvaluator.java:222-239 | n relevant copies of one booking total n times its figure |
| EvaluatorExamples.GrossAndNetNotMixed | src/test/java/io/github/samasend/lambdalogic/test/booking/BookingsCurrencyAmountsEvaluatorTest.java:111-126 | a net-priced booking (gross 0.119) and a gross-priced one (0.10) total exactly 0.219 gross and open, 0 paid |
| EvaluatorExamples.PaidAmountDeducted | src/test/java/io/github/samasend/lambdalogic/test/booking/BookingsCurrencyAmountsEvaluatorTest.java:128-147 | gross 115, 11.5 and 1.15, each paid 10, total 127.65 gross, 30 paid and 97.65 open |
| EvaluatorExamples.OpenTotalNotRecomputed | src/main/java/io/github/samasend/lambdalogic/test/booking/BookingsCurrencyAmountsEvaluator.java:100-101 | a booking with gross 10, paid 4 and open 1 gives an open total of 1, not 6 |
| EvaluatorExamples.InconsistentCalculationLeavesNullTotals | src/main/java/io/github/samasend/lambdalogic/test/booking/BookingsCurrencyAmountsEvaluator.java:241-272 | after a failed calculation on a new evaluator, all three getters return null |
| EvaluatorExamples.EmptyCalculationResetsTotals | src/test/java/io/github/samasend/lambdalogic/test/booking/BookingsCurrencyAmountsEvaluatorTest.java:57-64 | a calculation over an empty list returns the gross slot to null after an earlier call had filled it |
| EvaluatorExamples.Recalculation | src/main/java/io/github/samasend/lambdalogic/test/booking/BookingsCurrencyAmountsEvaluator.java:61-73 | on a reused evaluator, the second call's outcome and slots depend on its own arguments only, and repeating a call repeats its outcome |

## Left out

- `MonkeyPatchingPrice.java` is not part of this model. It overrides an external `Price` class whose code is not available, and the evaluator never calls it.
- The internals of the external `Booking`, `Price` and `CurrencyAmount` classes are not modelled, because their code is not available. A booking's gross, paid and open figures are given values, and so is its currency. This leaves out how gross is derived from net and tax, how a null paid amount becomes 0, and how the open amount is computed.
- `CurrencyAmount` equality and `BigDecimal` scale are not modelled, because that code is not available. An amount here is the exact sum, compared by value.
- The per-booking gross of the test scenarios is an assumption. The examples take a net price of 0.10 at 19% tax to give an unrounded gross of 0.119, although `MonkeyPatchingPrice.java` (lines 13-17) says the library's `Price` rounds that figure. Under this reading the tests' expected 0.12 (test lines 66-80), 1.19 and 0.22 all hold if the unseen `CurrencyAmount` compares the exact sums 0.119, 1.19 and 0.219 at two decimal places. The examples therefore state the exact sums.
- Bookings.StringLess: it orders strings by Unicode code point. Java's `String.compareTo` compares UTF-16 code units, so the two disagree only when a currency string holds a character above U+FFFF.
- Exceptions become an `Outcome` return value. Java `null` handling is left out: a null recipient PK at line 156 would throw `NullPointerException`, and null list elements are not modelled either.
- Recipient PKs are unbounded integers. The source compares two `long` values for equality and does no arithmetic on them, so the width does not matter.
- Thread safety and concurrent use are left out: the class documents itself as not thread-safe (lines 25, 33).
- Leaving the input list unchanged (line 163) needs no proof here. A Dafny sequence is an immutable value.
- The unit tests' helper `getBooking` is left out: it uses random ids, dates and JUnit plumbing and has no logic to model.

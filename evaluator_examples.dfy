/**
 * The scenarios of the evaluator's unit tests, stated on the model. Each
 * booking's gross, paid and open figures come from the external price model,
 * whose code is not available, so they are assumed here. A net price of 0.10
 * at 19% tax is taken to give an unrounded gross of 0.119, which is the
 * reading under which the tests' expected 0.12, 1.19 and 0.22 all hold if
 * CurrencyAmount compares the exact sums at two decimal places. A gross price of 0.10
 * stays 0.10, and an unpaid booking is open for its whole gross amount.
 */
module EvaluatorExamples {
  import opened Options
  import opened Bookings
  import opened Evaluator

  const Recipient := 10001

  /** An unpaid booking of the recipient. */
  function Unpaid(currency: string, gross: real): Booking {
    Booking(Recipient, currency, gross, 0.0, gross)
  }

  /** Two relevant bookings in ETB and USD: the calculation fails, naming both. */
  lemma InconsistentCurrenciesReported()
    ensures Evaluate([Unpaid("ETB", 100.0), Unpaid("USD", 100.0)], Recipient)
            == Evaluation(InconsistentCurrencies("ETB", "USD"), NoTotals)
  {
    var bs := [Unpaid("ETB", 100.0), Unpaid("USD", 100.0)];
    assert bs[0] in bs && bs[1] in bs;
    TwoCurrencies(bs, "ETB", "USD");
  }

  /** Relevant bookings in exactly two currencies: the calculation fails,
      naming the two currencies in ascending order. */
  lemma TwoCurrencies(bs: seq<Booking>, c1: string, c2: string)
    requires RelevantCurrency(bs, Recipient, c1) && RelevantCurrency(bs, Recipient, c2)
    requires StringLess(c1, c2)
    requires forall b :: b in bs && Relevant(b, Recipient) ==> b.currency == c1 || b.currency == c2
    ensures Evaluate(bs, Recipient) == Evaluation(InconsistentCurrencies(c1, c2), NoTotals)
  {
    StringLessTrichotomy(c1, c2);
    assert MixedRelevantCurrencies(bs, Recipient);
  }

  /** A booking of another recipient in another currency is ignored. */
  lemma OtherRecipientIgnored()
    ensures Evaluate([Unpaid("USD", 5.0), Booking(10002, "ETB", 7.0, 0.0, 7.0)], Recipient)
            == Evaluation(Ok, Totals(Some(CurrencyAmount(5.0, "USD")), Some(CurrencyAmount(0.0, "USD")),
                                     Some(CurrencyAmount(5.0, "USD"))))
  {
  }

  /** A zero booking in another currency is ignored. */
  lemma ZeroBookingInOtherCurrencyIgnored()
    ensures Evaluate([Unpaid("ETB", 100.0), Unpaid("USD", 0.0)], Recipient)
            == Evaluation(Ok, Totals(Some(CurrencyAmount(100.0, "ETB")), Some(CurrencyAmount(0.0, "ETB")),
                                     Some(CurrencyAmount(100.0, "ETB"))))
  {
  }

  /** No bookings: no totals. */
  lemma EmptyListGivesNoTotals()
    ensures Evaluate([], Recipient) == Evaluation(Ok, NoTotals)
  {
  }

  /** Ten bookings of gross 0.119 add up to exactly 1.19. */
  lemma NoRoundingDrift()
    ensures var bs := seq(10, i => Unpaid("€", 0.119));
            Evaluate(bs, Recipient).totals
            == Totals(Some(CurrencyAmount(1.19, "€")), Some(CurrencyAmount(0.0, "€")),
                      Some(CurrencyAmount(1.19, "€")))
  {
    var bs := seq(10, i => Unpaid("€", 0.119));
    var b := Unpaid("€", 0.119);
    assert forall x :: x in bs ==> x == b;
    assert bs[0] in bs;
    OneCurrencyTotals(bs, "€");
    TenEqualTotals(bs, b);
  }

  /** On a list in one currency with a relevant booking, the slots hold the
      three relevant totals in that currency. */
  lemma OneCurrencyTotals(bs: seq<Booking>, c: string)
    requires HasRelevant(bs, Recipient)
    requires forall x :: x in bs ==> x.currency == c
    ensures Evaluate(bs, Recipient) == Evaluation(Ok, Totals(
              Some(CurrencyAmount(RelevantTotal(bs, Recipient, Gross), c)),
              Some(CurrencyAmount(RelevantTotal(bs, Recipient, Paid), c)),
              Some(CurrencyAmount(RelevantTotal(bs, Recipient, Open), c))))
  {
    var x :| x in bs && Relevant(x, Recipient);
  }

  lemma TenEqualTotals(bs: seq<Booking>, b: Booking)
    requires |bs| == 10 && forall x :: x in bs ==> x == b
    requires Relevant(b, Recipient)
    ensures forall f :: RelevantTotal(bs, Recipient, f) == 10.0 * Pluck(b, f)
  {
    forall f ensures RelevantTotal(bs, Recipient, f) == 10.0 * Pluck(b, f) {
      ConstantTotal(bs, b, f);
    }
  }

  lemma {:induction false} ConstantTotal(bs: seq<Booking>, b: Booking, f: Field)
    requires forall x :: x in bs ==> x == b
    requires Relevant(b, Recipient)
    ensures RelevantTotal(bs, Recipient, f) == (|bs| as real) * Pluck(b, f)
  {
    if bs != [] {
      assert bs[0] in bs;
      assert forall x :: x in bs[1..] ==> x in bs;
      ConstantTotal(bs[1..], b, f);
      assert (|bs| as real) * Pluck(b, f) == Pluck(b, f) + (|bs[1..]| as real) * Pluck(b, f);
    }
  }

  /** A net-priced and a gross-priced booking each contribute their own gross
      figure: 0.119 + 0.10 is exactly 0.219. */
  lemma GrossAndNetNotMixed()
    ensures Evaluate([Unpaid("€", 0.119), Unpaid("€", 0.10)], Recipient).totals
            == Totals(Some(CurrencyAmount(0.219, "€")), Some(CurrencyAmount(0.0, "€")),
                      Some(CurrencyAmount(0.219, "€")))
  {
    var bs := [Unpaid("€", 0.119), Unpaid("€", 0.10)];
    assert bs[0] in bs;
    assert bs[1..] == [bs[1]] && bs[1..][1..] == [];
    OneCurrencyTotals(bs, "€");
  }

  /** Three bookings with 15% tax on 100, 10 and 1, each paid 10: gross
      127.65, paid 30 and open 97.65, the open total being the sum of the
      bookings' own open amounts. */
  lemma PaidAmountDeducted()
    ensures var bs := [Booking(Recipient, "ብር", 115.0, 10.0, 105.0),
                       Booking(Recipient, "ብር", 11.5, 10.0, 1.5),
                       Booking(Recipient, "ብር", 1.15, 10.0, -8.85)];
            Evaluate(bs, Recipient).totals
            == Totals(Some(CurrencyAmount(127.65, "ብር")), Some(CurrencyAmount(30.0, "ብር")),
                      Some(CurrencyAmount(97.65, "ብር")))
  {
    var bs := [Booking(Recipient, "ብር", 115.0, 10.0, 105.0),
               Booking(Recipient, "ብር", 11.5, 10.0, 1.5),
               Booking(Recipient, "ብር", 1.15, 10.0, -8.85)];
    assert bs[0] in bs;
    OneCurrencyTotals(bs, "ብር");
    ThreeTotal(bs[0], bs[1], bs[2], Gross);
    ThreeTotal(bs[0], bs[1], bs[2], Paid);
    ThreeTotal(bs[0], bs[1], bs[2], Open);
  }

  /** The total of one figure over three relevant bookings. */
  lemma ThreeTotal(x: Booking, y: Booking, z: Booking, f: Field)
    requires Relevant(x, Recipient) && Relevant(y, Recipient) && Relevant(z, Recipient)
    ensures RelevantTotal([x, y, z], Recipient, f) == Pluck(x, f) + Pluck(y, f) + Pluck(z, f)
  {
    assert RelevantTotal([z], Recipient, f) == Pluck(z, f) by {
      assert [z][1..] == [];
    }
    assert RelevantTotal([y, z], Recipient, f) == Pluck(y, f) + RelevantTotal([z], Recipient, f) by {
      assert [y, z][1..] == [z];
    }
    assert RelevantTotal([x, y, z], Recipient, f) == Pluck(x, f) + RelevantTotal([y, z], Recipient, f) by {
      assert [x, y, z][1..] == [y, z];
    }
  }

  /** The open total is summed, not recomputed: a booking whose open figure
      is not gross minus paid keeps its own open figure in the total. */
  lemma OpenTotalNotRecomputed()
    ensures Evaluate([Booking(Recipient, "€", 10.0, 4.0, 1.0)], Recipient).totals.totalOpenAmount
            == Some(CurrencyAmount(1.0, "€"))
  {
  }

  /** A fresh evaluator after a failing calculation: every getter returns null. */
  method InconsistentCalculationLeavesNullTotals()
    returns (outcome: Outcome, gross: Option<CurrencyAmount>, paid: Option<CurrencyAmount>,
             open: Option<CurrencyAmount>)
    ensures outcome == InconsistentCurrencies("ETB", "USD")
    ensures gross == None && paid == None && open == None
  {
    var evaluator := new BookingsCurrencyAmountsEvaluator();
    InconsistentCurrenciesReported();
    outcome := evaluator.Calculate([Unpaid("ETB", 100.0), Unpaid("USD", 100.0)], Recipient);
    gross := evaluator.GetTotalAmount();
    paid := evaluator.GetTotalPaidAmount();
    open := evaluator.GetTotalOpenAmount();
  }

  /** A calculation over an empty list resets totals an earlier call filled. */
  method EmptyCalculationResetsTotals()
    returns (before: Option<CurrencyAmount>, after: Option<CurrencyAmount>)
    ensures before == Some(CurrencyAmount(100.0, "ETB"))
    ensures after == None
  {
    var evaluator := new BookingsCurrencyAmountsEvaluator();
    ZeroBookingInOtherCurrencyIgnored();
    var _ := evaluator.Calculate([Unpaid("ETB", 100.0), Unpaid("USD", 0.0)], Recipient);
    before := evaluator.GetTotalAmount();
    var _ := evaluator.Calculate([], Recipient);
    after := evaluator.GetTotalAmount();
  }

  /** Reusing one evaluator: the second call's results are those of its own
      arguments alone, and repeating a call repeats its results. */
  method Recalculation(evaluator: BookingsCurrencyAmountsEvaluator,
                       earlier: seq<Booking>, later: seq<Booking>, id: int)
    returns (first: Outcome, second: Outcome)
    modifies evaluator
    ensures second == Evaluate(later, id).outcome
    ensures evaluator.Slots() == Evaluate(later, id).totals
    ensures earlier == later ==> first == second
  {
    first := evaluator.Calculate(earlier, id);
    second := evaluator.Calculate(later, id);
  }
}

/**
 * BookingsCurrencyAmountsEvaluator: adds up the gross, paid and open amounts
 * of the bookings that belong to one invoice recipient, refusing to add
 * amounts of different currencies. The stream pipelines are functions; the
 * evaluator object with its three result slots is a class.
 */
module Evaluator {
  import opened Options
  import opened Bookings
  import opened Sequences

  /** What `calculate` ends with: normal completion, or the
      InconsistentCurrenciesException with the first and the last element of
      the sorted set of currencies it found. */
  datatype Outcome = Ok | InconsistentCurrencies(first: string, second: string)

  /** The three result slots; `None` stands for `null`. */
  datatype Totals = Totals(
    totalAmount: Option<CurrencyAmount>,
    totalPaidAmount: Option<CurrencyAmount>,
    totalOpenAmount: Option<CurrencyAmount>)

  const NoTotals := Totals(None, None, None)

  /** The slots hold either nothing, or three amounts in one currency. */
  predicate TotalsConsistent(t: Totals) {
    || t == NoTotals
    || (&& t.totalAmount.Some? && t.totalPaidAmount.Some? && t.totalOpenAmount.Some?
        && t.totalPaidAmount.value.currency == t.totalAmount.value.currency
        && t.totalOpenAmount.value.currency == t.totalAmount.value.currency)
  }

  /** The outcome and the slots after one call of `calculate`. */
  datatype Evaluation = Evaluation(outcome: Outcome, totals: Totals)

  // ---------------------------------------------------------------------
  // Reference definitions, stated on the caller's list

  /** A booking is relevant when it belongs to the recipient and is not zero. */
  predicate Relevant(b: Booking, id: int) {
    b.invoiceRecipientPk == id && !b.IsZero()
  }

  predicate HasRelevant(bookings: seq<Booking>, id: int) {
    exists b :: b in bookings && Relevant(b, id)
  }

  /** Two relevant bookings of the list disagree on the currency. */
  predicate MixedRelevantCurrencies(bookings: seq<Booking>, id: int) {
    exists a, b :: a in bookings && b in bookings && Relevant(a, id) && Relevant(b, id)
                   && a.currency != b.currency
  }

  predicate RelevantCurrency(bookings: seq<Booking>, id: int, c: string) {
    exists b :: b in bookings && Relevant(b, id) && b.currency == c
  }

  /** The exact sum of one figure over the relevant bookings of the list. */
  function RelevantTotal(bookings: seq<Booking>, id: int, field: Field): real {
    if bookings == [] then 0.0
    else (if Relevant(bookings[0], id) then Pluck(bookings[0], field) else 0.0)
         + RelevantTotal(bookings[1..], id, field)
  }

  /** Two bookings disagree on the currency. */
  predicate MixedCurrencies(bookings: seq<Booking>) {
    exists a, b :: a in bookings && b in bookings && a.currency != b.currency
  }

  // ---------------------------------------------------------------------
  // filterBookings

  function RecipientIs(id: int): Booking -> bool {
    (b: Booking) => b.invoiceRecipientPk == id
  }

  predicate NonZero(b: Booking) {
    !b.IsZero()
  }

  function RelevantTo(id: int): Booking -> bool {
    (b: Booking) => Relevant(b, id)
  }

  /** `filterBookings`: first keep the recipient's bookings, then drop the zero ones. */
  function FilterBookings(bookings: seq<Booking>, id: int): (r: seq<Booking>)
    ensures |r| <= |bookings|
    ensures forall b :: b in r <==> b in bookings && Relevant(b, id)
  {
    Filter(Filter(bookings, RecipientIs(id)), NonZero)
  }

  /** The two filters amount to one pass by relevance, in either order. */
  lemma {:induction false} FilterBookingsSinglePass(bookings: seq<Booking>, id: int)
    ensures FilterBookings(bookings, id) == Filter(bookings, RelevantTo(id))
    ensures FilterBookings(bookings, id) == Filter(Filter(bookings, NonZero), RecipientIs(id))
  {
    FilterFuse(bookings, RecipientIs(id), NonZero, RelevantTo(id));
    FilterCommutes(bookings, RecipientIs(id), NonZero);
  }

  /** The filtered list is relevant bookings of the caller's list in their
      original order: filtering each part of a split list and joining. */
  lemma FilterBookingsAppend(a: seq<Booking>, b: seq<Booking>, id: int)
    ensures FilterBookings(a + b, id) == FilterBookings(a, id) + FilterBookings(b, id)
  {
    FilterBookingsSinglePass(a + b, id);
    FilterBookingsSinglePass(a, id);
    FilterBookingsSinglePass(b, id);
    FilterAppend(a, b, RelevantTo(id));
  }

  // ---------------------------------------------------------------------
  // getDistinctCurrencies, containsMultipleCurrencies

  /** `map(Booking::getCurrency)`: the currencies of the bookings, one per booking. */
  function Currencies(bookings: seq<Booking>): (r: seq<string>)
    ensures |r| == |bookings|
    ensures forall i {:trigger r[i]} :: 0 <= i < |r| ==> r[i] == bookings[i].currency
    ensures forall b :: b in bookings ==> b.currency in r
  {
    assert forall b :: b in bookings ==> b.currency in seq(|bookings|, i requires 0 <= i < |bookings| => bookings[i].currency) by {
      forall b | b in bookings
        ensures b.currency in seq(|bookings|, i requires 0 <= i < |bookings| => bookings[i].currency)
      {
        var i :| 0 <= i < |bookings| && bookings[i] == b;
        assert seq(|bookings|, i requires 0 <= i < |bookings| => bookings[i].currency)[i] == b.currency;
      }
    }
    seq(|bookings|, i requires 0 <= i < |bookings| => bookings[i].currency)
  }

  /** The sorted set of at most two strings. */
  function SortedSet(s: seq<string>): (r: seq<string>)
    requires |s| <= 2 && (|s| == 2 ==> s[0] != s[1])
    ensures |r| == |s| && forall c :: c in r <==> c in s
    ensures |r| == 2 ==> r[0] != r[1] && StringLess(r[0], r[1])
  {
    assert |s| == 2 ==> StringLess(s[0], s[1]) || StringLess(s[1], s[0]) by {
      if |s| == 2 { StringLessTrichotomy(s[0], s[1]); }
    }
    if |s| == 2 && StringLess(s[1], s[0]) then [s[1], s[0]] else s
  }

  /** `getDistinctCurrencies`: the first two distinct currencies of the list,
      as a sorted set. */
  function GetDistinctCurrencies(bookings: seq<Booking>): (r: seq<string>)
    ensures |r| <= 2
    ensures |r| == 0 <==> bookings == []
    ensures forall c :: c in r ==> exists b :: b in bookings && b.currency == c
    ensures |r| == 2 <==> MixedCurrencies(bookings)
    ensures |r| == 2 ==> r[0] != r[1] && StringLess(r[0], r[1])
    ensures |r| == 1 ==> forall b :: b in bookings ==> b.currency == r[0]
  {
    var cs := Currencies(bookings);
    var d := Distinct(cs);
    var found := Take(d, 2);
    assert |found| == 2 ==> found[0] == d[0] && found[1] == d[1];
    assert forall c :: c in found ==> c in d;
    assert forall c :: c in cs ==> exists b :: b in bookings && b.currency == c by {
      forall c | c in cs ensures exists b :: b in bookings && b.currency == c {
        var i :| 0 <= i < |cs| && cs[i] == c;
        assert bookings[i] in bookings;
      }
    }
    assert MixedCurrencies(bookings) ==> |d| >= 2 by {
      if MixedCurrencies(bookings) {
        var a, b :| a in bookings && b in bookings && a.currency != b.currency;
        assert a.currency in d && b.currency in d;
      }
    }
    assert |d| >= 2 ==> MixedCurrencies(bookings) by {
      if |d| >= 2 {
        assert d[0] in cs && d[1] in cs && d[0] != d[1];
        var a :| a in bookings && a.currency == d[0];
        var b :| b in bookings && b.currency == d[1];
      }
    }
    SortedSet(found)
  }

  /** `containsMultipleCurrencies`: a set holds more than one currency exactly
      when two of its members differ. */
  function ContainsMultipleCurrencies(currencies: seq<string>): (r: bool)
    requires forall i, j :: 0 <= i < j < |currencies| ==> currencies[i] != currencies[j]
    ensures r <==> exists i, j :: 0 <= i < |currencies| && 0 <= j < |currencies|
                                  && currencies[i] != currencies[j]
  {
    assert |currencies| > 1 ==> currencies[0] != currencies[1];
    |currencies| > 1
  }

  // ---------------------------------------------------------------------
  // sum

  /** `map(plucker)`: one figure of every booking. */
  function Plucked(bookings: seq<Booking>, field: Field): (r: seq<real>)
    ensures |r| == |bookings|
    ensures forall i {:trigger r[i]} :: 0 <= i < |r| ==> r[i] == Pluck(bookings[i], field)
  {
    if bookings == [] then [] else [Pluck(bookings[0], field)] + Plucked(bookings[1..], field)
  }

  /** The map-reduce of `sum`: the reduced figure wrapped with the currency,
      absent on an empty list. */
  function SumAmount(bookings: seq<Booking>, field: Field, currency: string): (r: Option<CurrencyAmount>)
    ensures r == if bookings == [] then None
                 else Some(CurrencyAmount(SeqSum(Plucked(bookings, field)), currency))
  {
    match Reduce(Plucked(bookings, field))
    case None => None
    case Some(s) => Some(CurrencyAmount(s, currency))
  }

  /** The summed figure over the filtered list is the exact total of that
      figure over the relevant bookings of the caller's list. */
  lemma {:induction false} FilteredSumIsRelevantTotal(bookings: seq<Booking>, id: int, field: Field)
    ensures SeqSum(Plucked(Filter(bookings, RelevantTo(id)), field)) == RelevantTotal(bookings, id, field)
  {
    if bookings != [] {
      var x, rest := bookings[0], bookings[1..];
      FilteredSumIsRelevantTotal(rest, id, field);
      if Relevant(x, id) {
        var f := [x] + Filter(rest, RelevantTo(id));
        assert f[0] == x && f[1..] == Filter(rest, RelevantTo(id));
      }
    }
  }

  // ---------------------------------------------------------------------
  // calculate, as a function of its arguments

  /** What `calculate` does once the bookings are filtered: nothing to do on
      an empty list, an inconsistency when the list has two currencies, and
      otherwise the three exact totals in the list's one currency. */
  function EvaluateFiltered(filtered: seq<Booking>): (r: Evaluation)
    ensures TotalsConsistent(r.totals)
    ensures filtered == [] ==> r == Evaluation(Ok, NoTotals)
    ensures r.outcome.InconsistentCurrencies? <==> MixedCurrencies(filtered)
    ensures r.outcome.InconsistentCurrencies? ==>
              && r.totals == NoTotals
              && r.outcome.first != r.outcome.second
              && StringLess(r.outcome.first, r.outcome.second)
              && (exists b :: b in filtered && b.currency == r.outcome.first)
              && (exists b :: b in filtered && b.currency == r.outcome.second)
    ensures r.outcome.Ok? && filtered != [] ==>
              && (forall b :: b in filtered ==> b.currency == filtered[0].currency)
              && r.totals == Totals(
                   Some(CurrencyAmount(SeqSum(Plucked(filtered, Gross)), filtered[0].currency)),
                   Some(CurrencyAmount(SeqSum(Plucked(filtered, Paid)), filtered[0].currency)),
                   Some(CurrencyAmount(SeqSum(Plucked(filtered, Open)), filtered[0].currency)))
  {
    if filtered == [] then Evaluation(Ok, NoTotals)
    else
      var currencies := GetDistinctCurrencies(filtered);
      if ContainsMultipleCurrencies(currencies) then
        assert currencies[0] in currencies && currencies[|currencies| - 1] in currencies;
        Evaluation(InconsistentCurrencies(currencies[0], currencies[|currencies| - 1]), NoTotals)
      else
        var currency := currencies[0];
        assert filtered[0] in filtered;
        Evaluation(Ok, Totals(SumAmount(filtered, Gross, currency),
                              SumAmount(filtered, Paid, currency),
                              SumAmount(filtered, Open, currency)))
  }

  /** The outcome and the three slots that `calculate` leaves behind, stated
      on the caller's list. They depend on nothing but the arguments, whatever
      an earlier call left. */
  function Evaluate(bookings: seq<Booking>, id: int): (r: Evaluation)
    ensures TotalsConsistent(r.totals)
    ensures !HasRelevant(bookings, id) ==> r == Evaluation(Ok, NoTotals)
    ensures r.outcome.InconsistentCurrencies? <==> MixedRelevantCurrencies(bookings, id)
    ensures r.outcome.InconsistentCurrencies? ==>
              && r.totals == NoTotals
              && r.outcome.first != r.outcome.second
              && StringLess(r.outcome.first, r.outcome.second)
              && RelevantCurrency(bookings, id, r.outcome.first)
              && RelevantCurrency(bookings, id, r.outcome.second)
    ensures r.outcome.Ok? && HasRelevant(bookings, id) ==>
              && r.totals.totalAmount.Some?
              && (forall b :: b in bookings && Relevant(b, id) ==> b.currency == r.totals.totalAmount.value.currency)
              && r.totals.totalAmount.value.amount == RelevantTotal(bookings, id, Gross)
              && r.totals.totalPaidAmount == Some(CurrencyAmount(RelevantTotal(bookings, id, Paid), r.totals.totalAmount.value.currency))
              && r.totals.totalOpenAmount == Some(CurrencyAmount(RelevantTotal(bookings, id, Open), r.totals.totalAmount.value.currency))
  {
    var filtered := FilterBookings(bookings, id);
    assert filtered == [] <==> !HasRelevant(bookings, id) by {
      if filtered != [] { assert filtered[0] in filtered; }
    }
    assert MixedCurrencies(filtered) <==> MixedRelevantCurrencies(bookings, id);
    FilterBookingsSinglePass(bookings, id);
    FilteredSumIsRelevantTotal(bookings, id, Gross);
    FilteredSumIsRelevantTotal(bookings, id, Paid);
    FilteredSumIsRelevantTotal(bookings, id, Open);
    var r := EvaluateFiltered(filtered);
    assert r.outcome.InconsistentCurrencies? ==>
             RelevantCurrency(bookings, id, r.outcome.first) && RelevantCurrency(bookings, id, r.outcome.second) by {
      if r.outcome.InconsistentCurrencies? {
        var a :| a in filtered && a.currency == r.outcome.first;
        var b :| b in filtered && b.currency == r.outcome.second;
      }
    }
    r
  }

  // ---------------------------------------------------------------------
  // Properties of calculate

  /** A booking of another invoice recipient changes nothing, whatever its
      currency: it is neither summed nor checked. */
  lemma ForeignRecipientIgnored(before: seq<Booking>, b: Booking, after: seq<Booking>, id: int)
    requires b.invoiceRecipientPk != id
    ensures Evaluate(before + [b] + after, id) == Evaluate(before + after, id)
  {
    IrrelevantBookingIgnored(before, b, after, id);
  }

  /** A booking whose gross and paid amounts are both zero changes nothing,
      whatever its currency. */
  lemma ZeroBookingIgnored(before: seq<Booking>, b: Booking, after: seq<Booking>, id: int)
    requires b.IsZero()
    ensures Evaluate(before + [b] + after, id) == Evaluate(before + after, id)
  {
    IrrelevantBookingIgnored(before, b, after, id);
  }

  lemma IrrelevantBookingIgnored(before: seq<Booking>, b: Booking, after: seq<Booking>, id: int)
    requires !Relevant(b, id)
    ensures FilterBookings(before + [b] + after, id) == FilterBookings(before + after, id)
  {
    FilterBookingsAppend(before + [b], after, id);
    FilterBookingsAppend(before, [b], id);
    FilterBookingsAppend(before, after, id);
    assert FilterBookings([b], id) == [];
  }

  /** The reported pair is the first currency of the relevant bookings and the
      first one that differs from it, in list order, however many currencies
      there are. */
  lemma InconsistentPairIsFirstTwoDistinct(bookings: seq<Booking>, id: int)
    requires Evaluate(bookings, id).outcome.InconsistentCurrencies?
    ensures var rel := FilterBookings(bookings, id);
            var o := Evaluate(bookings, id).outcome;
            exists k :: 0 < k < |rel|
                        && (forall j :: 0 <= j < k ==> rel[j].currency == rel[0].currency)
                        && {o.first, o.second} == {rel[0].currency, rel[k].currency}
  {
    FilteredPairIsFirstTwoDistinct(FilterBookings(bookings, id));
  }

  lemma FilteredPairIsFirstTwoDistinct(rel: seq<Booking>)
    requires EvaluateFiltered(rel).outcome.InconsistentCurrencies?
    ensures var o := EvaluateFiltered(rel).outcome;
            exists k :: 0 < k < |rel|
                        && (forall j :: 0 <= j < k ==> rel[j].currency == rel[0].currency)
                        && {o.first, o.second} == {rel[0].currency, rel[k].currency}
  {
    var cs := Currencies(rel);
    DistinctFirstTwo(cs);
    var k :| 0 < k < |cs| && Distinct(cs)[1] == cs[k] && forall j :: 0 <= j < k ==> cs[j] == cs[0];
    assert forall j :: 0 <= j < k ==> rel[j].currency == rel[0].currency by {
      forall j | 0 <= j < k ensures rel[j].currency == rel[0].currency {
        assert cs[j] == rel[j].currency && cs[0] == rel[0].currency;
      }
    }
  }

  /** Splitting the list splits every total exactly. */
  lemma {:induction false} RelevantTotalAppend(a: seq<Booking>, b: seq<Booking>, id: int, field: Field)
    ensures RelevantTotal(a + b, id, field) == RelevantTotal(a, id, field) + RelevantTotal(b, id, field)
  {
    if a == [] {
      assert a + b == b;
    } else {
      assert (a + b)[0] == a[0] && (a + b)[1..] == a[1..] + b;
      RelevantTotalAppend(a[1..], b, id, field);
    }
  }

  /** Calculating over two parts of a list that succeeds as a whole: each
      part succeeds in the same currency, and each total of the whole is the
      sum of the parts' totals. */
  lemma EvaluateSplit(a: seq<Booking>, b: seq<Booking>, id: int)
    requires Evaluate(a + b, id).outcome.Ok?
    requires HasRelevant(a, id) && HasRelevant(b, id)
    ensures var whole, left, right := Evaluate(a + b, id).totals, Evaluate(a, id).totals, Evaluate(b, id).totals;
            && Evaluate(a, id).outcome.Ok? && Evaluate(b, id).outcome.Ok?
            && left.totalAmount.value.currency == whole.totalAmount.value.currency
            && right.totalAmount.value.currency == whole.totalAmount.value.currency
            && whole.totalAmount.value.amount == left.totalAmount.value.amount + right.totalAmount.value.amount
            && whole.totalPaidAmount.value.amount == left.totalPaidAmount.value.amount + right.totalPaidAmount.value.amount
            && whole.totalOpenAmount.value.amount == left.totalOpenAmount.value.amount + right.totalOpenAmount.value.amount
  {
    assert forall x :: x in a ==> x in a + b;
    assert forall x :: x in b ==> x in a + b;
    assert HasRelevant(a + b, id) by {
      var x :| x in a && Relevant(x, id);
      assert x in a + b;
    }
    var xa :| xa in a && Relevant(xa, id);
    var xb :| xb in b && Relevant(xb, id);
    RelevantTotalAppend(a, b, id, Gross);
    RelevantTotalAppend(a, b, id, Paid);
    RelevantTotalAppend(a, b, id, Open);
  }

  /** The open total is the sum of the bookings' own open amounts; it agrees
      with gross minus paid when every relevant booking's figures do. */
  lemma {:induction false} BalancedOpenTotal(bookings: seq<Booking>, id: int)
    requires forall b :: b in bookings && Relevant(b, id) ==> b.openAmount == b.totalAmountGross - b.paidAmount
    ensures RelevantTotal(bookings, id, Open) == RelevantTotal(bookings, id, Gross) - RelevantTotal(bookings, id, Paid)
  {
    if bookings != [] {
      assert bookings[0] in bookings;
      BalancedOpenTotal(bookings[1..], id);
    }
  }

  // ---------------------------------------------------------------------
  // The evaluator object

  /** The evaluator with its three result slots, `null` until a successful
      calculation and reset at the start of every one. */
  class BookingsCurrencyAmountsEvaluator {
    var totalAmount: Option<CurrencyAmount>
    var totalPaidAmount: Option<CurrencyAmount>
    var totalOpenAmount: Option<CurrencyAmount>

    function Slots(): Totals
      reads this
    {
      Totals(totalAmount, totalPaidAmount, totalOpenAmount)
    }

    constructor ()
      ensures Slots() == NoTotals
    {
      totalAmount, totalPaidAmount, totalOpenAmount := None, None, None;
    }

    /** `calculate`: resets the slots, then either leaves them empty (no
        relevant booking), reports two inconsistent currencies with the slots
        empty, or stores the three totals. Nothing of an earlier call survives. */
    method Calculate(bookingList: seq<Booking>, invoiceRecipientId: int) returns (outcome: Outcome)
      modifies this
      ensures outcome == Evaluate(bookingList, invoiceRecipientId).outcome
      ensures Slots() == Evaluate(bookingList, invoiceRecipientId).totals
      ensures TotalsConsistent(Slots())
    {
      ResetAllFields();
      var filteredBookings := FilterBookings(bookingList, invoiceRecipientId);
      if |filteredBookings| == 0 {
        return Ok;
      }
      var currencies := GetDistinctCurrencies(filteredBookings);
      if ContainsMultipleCurrencies(currencies) {
        return InconsistentCurrencies(currencies[0], currencies[|currencies| - 1]);
      }
      var currency := currencies[0];
      Sum(filteredBookings, Gross, currency);
      Sum(filteredBookings, Paid, currency);
      Sum(filteredBookings, Open, currency);
      outcome := Ok;
    }

    /** `resetAllFields`: all three slots to `null`. */
    method ResetAllFields()
      modifies this
      ensures Slots() == NoTotals
    {
      SetTotalAmount(None);
      SetTotalPaidAmount(None);
      SetTotalOpenAmount(None);
    }

    method SetTotalAmount(amount: Option<CurrencyAmount>)
      modifies this
      ensures Slots() == old(Slots()).(totalAmount := amount)
    {
      totalAmount := amount;
    }

    method SetTotalPaidAmount(amount: Option<CurrencyAmount>)
      modifies this
      ensures Slots() == old(Slots()).(totalPaidAmount := amount)
    {
      totalPaidAmount := amount;
    }

    method SetTotalOpenAmount(amount: Option<CurrencyAmount>)
      modifies this
      ensures Slots() == old(Slots()).(totalOpenAmount := amount)
    {
      totalOpenAmount := amount;
    }

    /** `sum`: plucks one figure of every booking, adds them up and, when
        there was anything to add, stores the sum in that figure's slot. The
        stored amount is the exact sum; the other slots are untouched. */
    method Sum(bookings: seq<Booking>, field: Field, currency: string)
      modifies this
      ensures var stored := SumAmount(bookings, field, currency);
              Slots() == if stored.None? then old(Slots())
                         else match field
                              case Gross => old(Slots()).(totalAmount := stored)
                              case Paid => old(Slots()).(totalPaidAmount := stored)
                              case Open => old(Slots()).(totalOpenAmount := stored)
      ensures bookings == [] ==> Slots() == old(Slots())
      ensures bookings != [] ==> SumAmount(bookings, field, currency)
                                 == Some(CurrencyAmount(SeqSum(Plucked(bookings, field)), currency))
    {
      var reduced := Reduce(Plucked(bookings, field));
      if reduced.Some? {
        var amount := Some(CurrencyAmount(reduced.value, currency));
        match field
        case Gross => SetTotalAmount(amount);
        case Paid => SetTotalPaidAmount(amount);
        case Open => SetTotalOpenAmount(amount);
      }
    }

    method GetTotalAmount() returns (amount: Option<CurrencyAmount>)
      ensures amount == totalAmount
    {
      amount := totalAmount;
    }

    method GetTotalPaidAmount() returns (amount: Option<CurrencyAmount>)
      ensures amount == totalPaidAmount
    {
      amount := totalPaidAmount;
    }

    method GetTotalOpenAmount() returns (amount: Option<CurrencyAmount>)
      ensures amount == totalOpenAmount
    {
      amount := totalOpenAmount;
    }
  }
}

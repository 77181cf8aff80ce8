/**
 * The values the evaluator consumes and produces. Booking and CurrencyAmount
 * belong to an external library; only the accessors the evaluator calls are
 * modelled, and each booking's figures are given values, whatever the external
 * price model computed them to be. BigDecimal amounts are exact rationals here.
 */
module Bookings {

  /** A booking as the evaluator sees it: its invoice recipient's PK, its
      currency and its three per-booking figures. */
  datatype Booking = Booking(
    invoiceRecipientPk: int,
    currency: string,
    totalAmountGross: real,
    paidAmount: real,
    openAmount: real)
  {
    /** A booking carries no information when its gross and paid amounts are both 0. */
    predicate IsZero() {
      totalAmountGross == 0.0 && paidAmount == 0.0
    }
  }

  /** An amount tagged with its currency, compared by numeric value. */
  datatype CurrencyAmount = CurrencyAmount(amount: real, currency: string)

  /** Which of a booking's three figures a summation plucks. */
  datatype Field = Gross | Paid | Open

  /** The plucker `calculate` hands to `sum` for the given figure. */
  function Pluck(b: Booking, field: Field): real {
    match field
    case Gross => b.totalAmountGross
    case Paid => b.paidAmount
    case Open => b.openAmount
  }

  /** Natural ordering of strings as a sorted set uses it: lexicographic by
      character, a proper prefix before the longer string. */
  predicate StringLess(a: string, b: string) {
    if a == [] then b != []
    else if b == [] then false
    else if a[0] != b[0] then a[0] < b[0]
    else StringLess(a[1..], b[1..])
  }

  /** The string ordering is irreflexive and, of two different strings,
      exactly one comes first. */
  lemma {:induction false} StringLessTrichotomy(a: string, b: string)
    ensures a == b ==> !StringLess(a, b)
    ensures a != b ==> (StringLess(a, b) <==> !StringLess(b, a))
  {
    if a != [] && b != [] && a[0] == b[0] {
      StringLessTrichotomy(a[1..], b[1..]);
      assert a == [a[0]] + a[1..] && b == [b[0]] + b[1..];
    }
  }

  /** The string ordering is transitive; with the lemma above, a strict total order. */
  lemma {:induction false} StringLessTransitive(a: string, b: string, c: string)
    requires StringLess(a, b) && StringLess(b, c)
    ensures StringLess(a, c)
  {
    if a != [] && a[0] == b[0] && b[0] == c[0] {
      StringLessTransitive(a[1..], b[1..], c[1..]);
    }
  }
}

/** Ticket numbers: a counter kept as a decimal string under the `lastTicketNumber` key of local
    storage, incremented on every new ticket and shown zero-padded to eight digits. */
module TicketNumber {
  import opened Seqs
  import opened Text

  /** `n.toString().padStart(8, '0')`. */
  function FormatTicketNumber(n: nat): string
  {
    PadStart(ToDecimal(n), 8, '0')
  }

  /** The shown number has at least eight characters, all digits, is never truncated, and reads
      back as the counter value. */
  lemma {:induction false} FormatTicketNumberRoundTrip(n: nat)
    ensures AllDigits(FormatTicketNumber(n))
    ensures |FormatTicketNumber(n)| == if |ToDecimal(n)| >= 8 then |ToDecimal(n)| else 8
    ensures DecimalValue(FormatTicketNumber(n)) == n
  {
    var s := ToDecimal(n);
    DecimalRoundTrip(n);
    PadStartShape(s, 8, '0');
    if |s| < 8 {
      var z := seq(8 - |s|, _ => '0');
      assert FormatTicketNumber(n) == z + s;
      LeadingZeros(z, s);
    }
  }

  /** Distinct counter values are shown as distinct numbers. */
  lemma {:induction false} FormatTicketNumberInjective(a: nat, b: nat)
    requires FormatTicketNumber(a) == FormatTicketNumber(b)
    ensures a == b
  {
    FormatTicketNumberRoundTrip(a);
    FormatTicketNumberRoundTrip(b);
  }

  /** The first ticket of an empty store is "00000001". */
  lemma {:induction false} FirstTicketNumber()
    ensures FormatTicketNumber(1) == "00000001"
  {
    assert ToDecimal(1) == "1";
  }

  class TicketCounter {
    /** The stored string, absent before the first ticket. */
    var lastTicketNumber: Option<string>

    constructor()
      ensures lastTicketNumber == None
    {
      lastTicketNumber := None;
    }

    /** The store only ever holds what `toString()` wrote: a non-empty string of digits. */
    predicate Valid()
      reads this
    {
      lastTicketNumber.Some? ==> lastTicketNumber.value != [] && AllDigits(lastTicketNumber.value)
    }

    /** The counter value a read yields: 0 when nothing is stored. */
    function LastNumber(): nat
      reads this
      requires Valid()
    {
      if lastTicketNumber.Some? then DecimalValue(lastTicketNumber.value) else 0
    }

    /** `getLastTicketNumber`. */
    method GetLastTicketNumber() returns (n: nat)
      requires Valid()
      ensures lastTicketNumber.None? ==> n == 0
      ensures lastTicketNumber.Some? ==> ToDecimal(n) == lastTicketNumber.value || lastTicketNumber.value[0] == '0'
      ensures n == LastNumber()
    {
      n := LastNumber();
      if lastTicketNumber.Some? && lastTicketNumber.value[0] != '0' {
        CanonicalDecimal(lastTicketNumber.value);
      }
    }

    /** `generateTicketNumber`: the counter is incremented and saved, and the new value is
        returned padded to eight digits. */
    method GenerateTicketNumber() returns (number: string)
      requires Valid()
      modifies this
      ensures Valid() && LastNumber() == old(LastNumber()) + 1
      ensures lastTicketNumber == Some(ToDecimal(LastNumber()))
      ensures number == FormatTicketNumber(LastNumber())
    {
      var lastNumber := GetLastTicketNumber();
      var newNumber := lastNumber + 1;
      DecimalRoundTrip(newNumber);
      lastTicketNumber := Some(ToDecimal(newNumber));
      number := FormatTicketNumber(newNumber);
    }
  }

  /** A digit string without a leading zero is the decimal form of its value. */
  lemma {:induction false} CanonicalDecimal(s: string)
    requires s != [] && AllDigits(s) && s[0] != '0'
    ensures ToDecimal(DecimalValue(s)) == s
    decreases |s|
  {
    if |s| > 1 {
      var init := s[..|s| - 1];
      CanonicalDecimal(init);
      assert DecimalValue(init) > 0 by { NonZeroLead(init); }
    }
  }

  lemma {:induction false} NonZeroLead(s: string)
    requires s != [] && AllDigits(s) && s[0] != '0'
    ensures DecimalValue(s) >= 1
    decreases |s|
  {
    if |s| > 1 {
      NonZeroLead(s[..|s| - 1]);
    }
  }

  /** Two calls in a row give numbers whose values are consecutive, so the numbers increase. */
  lemma {:induction false} SuccessiveNumbersIncrease(n: nat)
    ensures AllDigits(FormatTicketNumber(n)) && AllDigits(FormatTicketNumber(n + 1))
    ensures DecimalValue(FormatTicketNumber(n)) < DecimalValue(FormatTicketNumber(n + 1))
    ensures FormatTicketNumber(n) != FormatTicketNumber(n + 1)
  {
    FormatTicketNumberRoundTrip(n);
    FormatTicketNumberRoundTrip(n + 1);
  }
}

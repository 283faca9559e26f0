/** The quick ticket form: a client name, a phone number and a number of valets, priced at a
    fixed 5000 each; submitting a valid form replaces it by the ticket until a new one is
    started. */
module TicketForm {
  import opened Seqs
  import opened Text

  /** The price of one valet. */
  const ValetPrice := 5000

  /** The least phone length a submission accepts. */
  const MinPhoneLength := 8

  /** The most characters the phone input accepts (its `maxLength`). */
  const MaxPhoneLength := 15

  /** The customer a submission produces. */
  datatype Customer = Customer(name: string, phone: string, valetQuantity: int, total: int)

  /** Why a submission was refused. */
  datatype SubmitError = BlankName | InvalidPhone

  /** `calculateTotal`: the price of `quantity` valets. */
  function CalculateTotal(quantity: int): (r: int)
    ensures quantity >= 1 ==> r >= ValetPrice
    ensures r % ValetPrice == 0 && r / ValetPrice == quantity
  {
    quantity * ValetPrice
  }

  /** `Math.max(1, parseInt(v) || 1)` on the quantity input: `parsed` is what `parseInt` made of
      the text, `None` for NaN; NaN and 0 fall back to 1, and nothing below 1 gets through. */
  function ClampQuantity(parsed: Option<int>): (r: int)
    ensures r >= 1
    ensures parsed.Some? && parsed.value >= 1 ==> r == parsed.value
    ensures parsed.None? || parsed.value < 1 ==> r == 1
  {
    var v := if parsed.None? || parsed.value == 0 then 1 else parsed.value;
    if v < 1 then 1 else v
  }

  /** The checks of `handleSubmit`, in order: a blank name first, then a phone that is blank
      or shorter than eight characters. */
  function CheckSubmission(name: string, phone: string): (r: Option<SubmitError>)
    ensures r == Some(BlankName) <==> IsBlank(name)
    ensures r == Some(InvalidPhone) <==> !IsBlank(name) && (IsBlank(phone) || |phone| < MinPhoneLength)
    ensures r.None? <==> !IsBlank(name) && !IsBlank(phone) && |phone| >= MinPhoneLength
  {
    TrimEmptyIffBlank(name);
    TrimEmptyIffBlank(phone);
    if Trim(name) == [] then Some(BlankName)
    else if Trim(phone) == [] || |phone| < MinPhoneLength then Some(InvalidPhone)
    else None
  }

  /** A phone kept to digits (as the phone handler keeps it) is refused exactly when it is
      shorter than eight characters: the blank test adds nothing. */
  lemma {:induction false} DigitPhoneCheck(name: string, phone: string)
    requires AllDigits(phone) && !IsBlank(name)
    ensures CheckSubmission(name, phone) == Some(InvalidPhone) <==> |phone| < MinPhoneLength
  {
    if |phone| >= MinPhoneLength {
      assert !IsWhitespace(phone[0]);
    }
  }

  /** A customer a submission can produce. */
  predicate ValidCustomer(c: Customer)
  {
    !IsBlank(c.name) && AllDigits(c.phone) && MinPhoneLength <= |c.phone| <= MaxPhoneLength &&
    c.valetQuantity >= 1 && c.total == CalculateTotal(c.valetQuantity)
  }

  class Form {
    var name: string
    var phone: string
    var valetQuantity: int
    var showTicket: bool
    var customer: Option<Customer>

    /** The quantity is at least 1, the phone holds at most 15 digits and nothing else, the
        customer (once there is one) passed the checks and is priced right, and the ticket is
        only shown for one. */
    predicate Valid()
      reads this
    {
      valetQuantity >= 1 && AllDigits(phone) && |phone| <= MaxPhoneLength &&
      (customer.Some? ==> ValidCustomer(customer.value)) &&
      (showTicket ==> customer.Some?)
    }

    /** The initial state: empty fields, one valet, no ticket. */
    constructor()
      ensures Valid()
      ensures name == "" && phone == "" && valetQuantity == 1 && !showTicket && customer == None
    {
      name := "";
      phone := "";
      valetQuantity := 1;
      showTicket := false;
      customer := None;
    }

    /** The total shown under the form. */
    function Total(): int
      reads this
    {
      CalculateTotal(valetQuantity)
    }

    /** The name input stores what was typed. */
    method SetName(value: string)
      requires Valid()
      modifies this
      ensures Valid()
      ensures name == value
      ensures phone == old(phone) && valetQuantity == old(valetQuantity)
      ensures showTicket == old(showTicket) && customer == old(customer)
    {
      name := value;
    }

    /** `handlePhoneChange`: the phone becomes the digits of what was typed; the input holds at
        most 15 characters, so the phone never has more than 15 digits. */
    method HandlePhoneChange(value: string)
      requires Valid() && |value| <= MaxPhoneLength
      modifies this
      ensures Valid()
      ensures phone == DigitsOnly(value)
      ensures name == old(name) && valetQuantity == old(valetQuantity)
      ensures showTicket == old(showTicket) && customer == old(customer)
    {
      DigitsOnlyProperties(value);
      FilterLength(value, IsDigit);
      phone := DigitsOnly(value);
    }

    /** `decreaseQuantity`: one valet fewer, unless only one is left. */
    method DecreaseQuantity()
      requires Valid()
      modifies this
      ensures Valid()
      ensures valetQuantity == if old(valetQuantity) > 1 then old(valetQuantity) - 1 else 1
      ensures old(valetQuantity) > 1 ==> Total() == old(Total()) - ValetPrice
      ensures name == old(name) && phone == old(phone)
      ensures showTicket == old(showTicket) && customer == old(customer)
    {
      if valetQuantity > 1 {
        valetQuantity := valetQuantity - 1;
      }
    }

    /** `increaseQuantity`: one valet more, so the total grows by one price. */
    method IncreaseQuantity()
      requires Valid()
      modifies this
      ensures Valid()
      ensures valetQuantity == old(valetQuantity) + 1
      ensures Total() == old(Total()) + ValetPrice
      ensures name == old(name) && phone == old(phone)
      ensures showTicket == old(showTicket) && customer == old(customer)
    {
      valetQuantity := valetQuantity + 1;
    }

    /** The quantity input: the typed number, clamped to at least 1. */
    method HandleQuantityInput(parsed: Option<int>)
      requires Valid()
      modifies this
      ensures Valid()
      ensures valetQuantity == ClampQuantity(parsed)
      ensures name == old(name) && phone == old(phone)
      ensures showTicket == old(showTicket) && customer == old(customer)
    {
      valetQuantity := ClampQuantity(parsed);
    }

    /** `resetForm`: empty name and phone and one valet; the ticket view is left alone. */
    method ResetForm()
      requires Valid()
      modifies this
      ensures Valid()
      ensures name == "" && phone == "" && valetQuantity == 1
      ensures showTicket == old(showTicket) && customer == old(customer)
    {
      name := "";
      phone := "";
      valetQuantity := 1;
    }

    /** `handleSubmit`: a refused form is left as it is; an accepted one becomes the customer,
        priced at the current total, and the ticket is shown. */
    method HandleSubmit() returns (r: Option<SubmitError>)
      requires Valid()
      modifies this
      ensures Valid()
      ensures r == CheckSubmission(old(name), old(phone))
      ensures r.Some? ==> showTicket == old(showTicket) && customer == old(customer)
      ensures r.None? ==> showTicket && customer == Some(Customer(name, phone, valetQuantity, Total()))
      ensures name == old(name) && phone == old(phone) && valetQuantity == old(valetQuantity)
    {
      r := CheckSubmission(name, phone);
      if r.Some? {
        return;
      }
      customer := Some(Customer(name, phone, valetQuantity, CalculateTotal(valetQuantity)));
      showTicket := true;
    }

    /** `newTicket`: the ticket is hidden and the form reset; the last customer stays stored. */
    method NewTicket()
      requires Valid()
      modifies this
      ensures Valid()
      ensures !showTicket && name == "" && phone == "" && valetQuantity == 1
      ensures customer == old(customer)
    {
      showTicket := false;
      ResetForm();
    }
  }
}

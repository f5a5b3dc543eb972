/**
 * The create/edit customer form of components/AddEditCustomerModal.tsx.
 *
 * The form holds four text fields. Opening it seeds them from the customer
 * being edited (or clears them to create one), the user edits them one at a
 * time, and submitting either rejects the text with the first failure found
 * or emits a customer payload together with the edited customer's id.
 */
module CustomerForm {
  import opened Wrappers
  import opened Types
  import opened EcmaNumber

  /** The four working fields, as the text the inputs hold. */
  datatype Fields = Fields(name: string, baseBill: string, whatsappNumber: string, dueDateDay: string)

  const Blank := Fields("", "", "", "")

  /** JavaScript truthiness of a string: only the empty string is falsy. */
  predicate Truthy(s: string) {
    s != ""
  }

  /**
   * The `||` fallback: a falsy string becomes the empty string. On a value
   * that is a string it therefore changes nothing.
   */
  function OrEmpty(s: string): (r: string)
    ensures r == s
  {
    if Truthy(s) then s else ""
  }

  /** `customerToEdit?.id` */
  function IdOf(customerToEdit: Option<Customer>): (id: Option<int>)
    ensures id.Some? <==> customerToEdit.Some?
    ensures id.Some? ==> id.value == customerToEdit.value.id
  {
    match customerToEdit
    case Some(c) => Some(c.id)
    case None => None
  }

  /** The working fields the seeding effect leaves behind for a subject, whatever was there before. */
  function Seeded(customerToEdit: Option<Customer>): (f: Fields)
    ensures customerToEdit.None? ==> f == Blank
    ensures customerToEdit.Some? ==>
      f.name == customerToEdit.value.name && f.whatsappNumber == customerToEdit.value.whatsappNumber &&
      f.baseBill == NumberToString(customerToEdit.value.baseBill) &&
      f.dueDateDay == NumberToString(customerToEdit.value.dueDateDay) &&
      Truthy(f.baseBill) && Truthy(f.dueDateDay)
  {
    match customerToEdit
    case Some(c) =>
      Fields(c.name, NumberToString(c.baseBill), OrEmpty(c.whatsappNumber), NumberToString(c.dueDateDay))
    case None => Blank
  }

  /** What a submission does: reject with one of the two alerts, or call `onSubmit(data, id)`. */
  datatype Outcome =
    | MissingField      // the alert that name, amount and due day are required
    | DayOutOfRange     // the alert that the due day must lie between 1 and 31
    | Submitted(data: CustomerData, id: Option<int>)

  /**
   * `handleSubmit`: the first failure wins. A missing name, amount or day is
   * reported before the day is parsed; the day is rejected only when it parses
   * to a number outside 1..31, so a NaN day passes; the amount is parsed but
   * never checked.
   */
  function Submit(f: Fields, customerToEdit: Option<Customer>): (r: Outcome)
    ensures r == MissingField <==> !Truthy(f.name) || !Truthy(f.baseBill) || !Truthy(f.dueDateDay)
    ensures r == DayOutOfRange <==>
      Truthy(f.name) && Truthy(f.baseBill) && Truthy(f.dueDateDay) &&
      ParseInt(f.dueDateDay).Some? && !(1 <= ParseInt(f.dueDateDay).value <= 31)
    ensures r.Submitted? ==>
      r.data.name == f.name && r.data.whatsappNumber == f.whatsappNumber &&
      r.data.baseBill == ParseInt(f.baseBill) && r.data.dueDateDay == ParseInt(f.dueDateDay) &&
      r.id == IdOf(customerToEdit)
    ensures r.Submitted? && r.data.dueDateDay.Some? ==> 1 <= r.data.dueDateDay.value <= 31
  {
    if !Truthy(f.name) || !Truthy(f.baseBill) || !Truthy(f.dueDateDay) then
      MissingField
    else
      var dueDateDayNum := ParseInt(f.dueDateDay);
      if LessThan(dueDateDayNum, 1) || GreaterThan(dueDateDayNum, 31) then
        DayOutOfRange
      else
        Submitted(CustomerData(f.name, ParseInt(f.baseBill), f.whatsappNumber, dueDateDayNum), IdOf(customerToEdit))
  }

  /** The form's state: the four `useState` text fields. */
  class AddEditCustomerModal {
    var name: string
    var baseBill: string
    var whatsappNumber: string
    var dueDateDay: string

    function Current(): (f: Fields)
      reads this
    {
      Fields(name, baseBill, whatsappNumber, dueDateDay)
    }

    /** Every field starts as `useState('')`. */
    constructor ()
      ensures Current() == Blank
    {
      name, baseBill, whatsappNumber, dueDateDay := "", "", "", "";
    }

    /**
     * The seeding effect, run whenever `customerToEdit` or `isOpen` changes:
     * the new fields depend on the subject alone, so earlier edits are discarded.
     */
    method Seed(customerToEdit: Option<Customer>)
      modifies this
      ensures Current() == Seeded(customerToEdit)
    {
      if customerToEdit.Some? {
        var c := customerToEdit.value;
        name := c.name;
        baseBill := NumberToString(c.baseBill);
        whatsappNumber := OrEmpty(c.whatsappNumber);
        dueDateDay := NumberToString(c.dueDateDay);
      } else {
        name := "";
        baseBill := "";
        whatsappNumber := "";
        dueDateDay := "";
      }
    }

    method SetName(value: string)
      modifies this
      ensures Current() == old(Current()).(name := value)
    {
      name := value;
    }

    method SetBaseBill(value: string)
      modifies this
      ensures Current() == old(Current()).(baseBill := value)
    {
      baseBill := value;
    }

    method SetWhatsappNumber(value: string)
      modifies this
      ensures Current() == old(Current()).(whatsappNumber := value)
    {
      whatsappNumber := value;
    }

    method SetDueDateDay(value: string)
      modifies this
      ensures Current() == old(Current()).(dueDateDay := value)
    {
      dueDateDay := value;
    }

    /** Submitting judges the current fields and leaves them as they are. */
    method HandleSubmit(customerToEdit: Option<Customer>) returns (outcome: Outcome)
      ensures outcome == Submit(Current(), customerToEdit)
    {
      outcome := Submit(Current(), customerToEdit);
    }
  }

  /**
   * Seeding from a customer shows its name as is, its amount and due day as
   * decimal text that reads back as the same numbers, and its WhatsApp number
   * (the `|| ''` fallback never changes a string); seeding with no customer
   * clears every field.
   */
  lemma SeededFields(customerToEdit: Option<Customer>)
    ensures customerToEdit.None? ==> Seeded(customerToEdit) == Blank
    ensures customerToEdit.Some? ==>
      var c, f := customerToEdit.value, Seeded(customerToEdit);
      f.name == c.name && f.whatsappNumber == c.whatsappNumber &&
      f.baseBill == NumberToString(c.baseBill) && f.dueDateDay == NumberToString(c.dueDateDay) &&
      Truthy(f.baseBill) && ParseInt(f.baseBill) == Some(c.baseBill) &&
      Truthy(f.dueDateDay) && ParseInt(f.dueDateDay) == Some(c.dueDateDay)
  {
    if customerToEdit.Some? {
      var c := customerToEdit.value;
      NumberToStringRoundTrip(c.baseBill);
      NumberToStringRoundTrip(c.dueDateDay);
    }
  }

  /** An empty required field is rejected whatever the other fields hold. */
  lemma MissingFieldWins(f: Fields, customerToEdit: Option<Customer>)
    ensures Submit(f.(name := ""), customerToEdit) == MissingField
    ensures Submit(f.(baseBill := ""), customerToEdit) == MissingField
    ensures Submit(f.(dueDateDay := ""), customerToEdit) == MissingField
  {
  }

  /** A due day written as a number outside 1..31 ("0", "32", "-1") is rejected once the other fields are present. */
  lemma DayOutOfRangeRejected(f: Fields, day: int, customerToEdit: Option<Customer>)
    requires Truthy(f.name) && Truthy(f.baseBill)
    requires day < 1 || day > 31
    ensures Submit(f.(dueDateDay := NumberToString(day)), customerToEdit) == DayOutOfRange
  {
    NumberToStringRoundTrip(day);
  }

  /**
   * A due day with no digit after its leading white space and optional sign
   * ("abc", "x5", "+-5", " ") parses to NaN, which fails both range
   * comparisons, so the payload goes out with a NaN day.
   */
  lemma NaNDayAccepted(f: Fields, customerToEdit: Option<Customer>)
    requires Truthy(f.name) && Truthy(f.baseBill) && Truthy(f.dueDateDay)
    requires !HasLeadingDigit(f.dueDateDay)
    ensures Submit(f, customerToEdit) ==
      Submitted(CustomerData(f.name, ParseInt(f.baseBill), f.whatsappNumber, None), IdOf(customerToEdit))
  {
  }

  /**
   * Only emptiness is checked: any non-empty name (white space included) and
   * any non-empty amount text ("0", "-5", "abc") reach `onSubmit`, the amount
   * as whatever `parseInt` makes of it.
   */
  lemma ContentIsNotChecked(name: string, baseBill: string, whatsappNumber: string, day: int,
                            customerToEdit: Option<Customer>)
    requires Truthy(name) && Truthy(baseBill)
    requires 1 <= day <= 31
    ensures Submit(Fields(name, baseBill, whatsappNumber, NumberToString(day)), customerToEdit) ==
      Submitted(CustomerData(name, ParseInt(baseBill), whatsappNumber, Some(day)), IdOf(customerToEdit))
  {
    NumberToStringRoundTrip(day);
  }

  /**
   * Opening the form on a customer and submitting it unchanged emits exactly
   * that customer's name, amount, WhatsApp number and due day, addressed to its id.
   */
  lemma SubmitAfterSeed(c: Customer)
    requires Truthy(c.name)
    requires 1 <= c.dueDateDay <= 31
    ensures Submit(Seeded(Some(c)), Some(c)) == Submitted(Omit(c), Some(c.id))
  {
    SeededFields(Some(c));
  }

  /** In create mode the payload carries no id; in edit mode it carries the edited customer's. */
  lemma SubmitAddressesSubject(f: Fields, c: Customer)
    requires Submit(f, None).Submitted?
    ensures Submit(f, None).id == None
    ensures Submit(f, Some(c)) == Submitted(Submit(f, None).data, Some(c.id))
  {
  }

  /** A complete entry is accepted with its numbers parsed. */
  lemma ScenarioAccepted()
    ensures Submit(Fields("Budi", "150000", "6281234", "20"), None) ==
      Submitted(CustomerData("Budi", Some(150000), "6281234", Some(20)), None)
  {
    assert NatToString(15) == "15";
    assert NatToString(150) == "150";
    assert NatToString(1500) == "1500";
    assert NatToString(15000) == "15000";
    assert NumberToString(150000) == "150000";
    NumberToStringRoundTrip(150000);
    assert NumberToString(20) == "20";
    NumberToStringRoundTrip(20);
  }

  /** A missing name is reported before anything is parsed. */
  lemma ScenarioMissingName()
    ensures Submit(Fields("", "100000", "", "10"), None) == MissingField
  {
  }

  /** Day 35 is out of range. */
  lemma ScenarioDayOutOfRange()
    ensures Submit(Fields("Ani", "50000", "", "35"), None) == DayOutOfRange
  {
    assert NumberToString(35) == "35";
    DayOutOfRangeRejected(Fields("Ani", "50000", "", ""), 35, None);
  }

  /** A blank-looking name, a negative amount and a day with trailing letters all go through. */
  lemma ScenarioLooseText()
    ensures Submit(Fields(" ", "-5", "", "20abc"), None) ==
      Submitted(CustomerData(" ", Some(-5), "", Some(20)), None)
  {
    ReadsMinusFive();
    ReadsTwentyAbc();
  }

  lemma ReadsMinusFive()
    ensures ParseInt("-5") == Some(-5)
  {
    assert NumberToString(-5) == "-5";
    NumberToStringRoundTrip(-5);
  }

  lemma ReadsTwentyAbc()
    ensures ParseInt("20abc") == Some(20)
  {
    assert NumberToString(20) + "abc" == "20abc";
    ParseIntOfNumberToString(20, "abc");
  }

  /** Day texts with digits only after a letter or a second sign are NaN and go through. */
  lemma ScenarioNaNDays()
    ensures Submit(Fields("a", "b", "", "abc5"), None) ==
      Submitted(CustomerData("a", None, "", None), None)
    ensures ParseInt("+-5") == None && ParseInt("x5") == None
  {
    NoLeadingDigit("abc5");
    NoLeadingDigit("b");
    NaNDayAccepted(Fields("a", "b", "", "abc5"), None);
    NoLeadingDigit("+-5");
    NoLeadingDigit("x5");
  }

  /** The first character of `s` is neither white space nor a digit, and no digit follows a leading sign. */
  lemma NoLeadingDigit(s: string)
    requires s != [] && !IsStrWhiteSpace(s[0]) && !IsDigit(s[0])
    requires |s| > 1 && (s[0] == '+' || s[0] == '-') ==> !IsDigit(s[1])
    ensures !HasLeadingDigit(s)
  {
    assert LeadingWhiteSpace(s) == 0;
  }
}

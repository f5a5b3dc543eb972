/**
 * The record types of types.ts: a bill status, a bill, a customer, and the
 * payload the customer form hands to its caller (`Omit<Customer, 'id' | 'bills'>`).
 */
module Types {
  import opened Wrappers

  /** `'LUNAS' | 'BELUM LUNAS'`: paid or unpaid, nothing in between. */
  datatype BillStatus = Lunas | BelumLunas

  /** The string literal that stands for a status in the source. */
  function StatusLabel(s: BillStatus): (r: string)
    ensures r == "LUNAS" || r == "BELUM LUNAS"
    ensures (r == "LUNAS") <==> s == Lunas
  {
    match s
    case Lunas => "LUNAS"
    case BelumLunas => "BELUM LUNAS"
  }

  /** Reads a status label back; any other string is not a status. */
  function StatusOfLabel(t: string): (r: Option<BillStatus>)
    ensures r.Some? <==> t == "LUNAS" || t == "BELUM LUNAS"
  {
    if t == "LUNAS" then Some(Lunas)
    else if t == "BELUM LUNAS" then Some(BelumLunas)
    else None
  }

  /** The union is closed: every status has a label, and exactly the two labels are statuses. */
  lemma StatusLabelRoundTrip(s: BillStatus, t: string)
    ensures StatusOfLabel(StatusLabel(s)) == Some(s)
    ensures StatusOfLabel(t).Some? ==> StatusLabel(StatusOfLabel(t).value) == t
  {
  }

  /**
   * One billing period. `paymentDate` is `string | null` (None while unpaid);
   * `baseBill` is the amount of this period, kept apart from the customer's
   * current amount.
   */
  datatype Bill = Bill(
    paymentMonth: string,
    status: BillStatus,
    paymentDate: Option<string>,
    dueDate: string,
    baseBill: int)

  /** A customer with the ordered history of its bills. */
  datatype Customer = Customer(
    id: int,
    name: string,
    baseBill: int,
    whatsappNumber: string,
    dueDateDay: int,
    bills: seq<Bill>)

  /**
   * `Omit<Customer, 'id' | 'bills'>` as the form emits it. Its numbers come
   * from `parseInt`, so each may be NaN, written None.
   */
  datatype CustomerData = CustomerData(
    name: string,
    baseBill: Option<int>,
    whatsappNumber: string,
    dueDateDay: Option<int>)

  /** The part of a customer that the payload type can describe. */
  function Omit(c: Customer): (d: CustomerData)
    ensures d.baseBill == Some(c.baseBill) && d.dueDateDay == Some(c.dueDateDay)
  {
    CustomerData(c.name, Some(c.baseBill), c.whatsappNumber, Some(c.dueDateDay))
  }

  /**
   * The payload carries no identity and no bill history: customers that differ
   * only there have the same payload, and every other field of the customer
   * reaches the payload unchanged.
   */
  lemma OmitForgetsIdAndBills(c: Customer, id: int, bills: seq<Bill>)
    ensures Omit(c.(id := id, bills := bills)) == Omit(c)
    ensures Omit(c).name == c.name && Omit(c).whatsappNumber == c.whatsappNumber
    ensures Omit(c).baseBill == Some(c.baseBill) && Omit(c).dueDateDay == Some(c.dueDateDay)
  {
  }
}

/** The `invoices` table. */
module InvoicesSchema {
  import opened Wrappers
  import opened SqlTypes

  /** The `invoice_status` enum; new rows are drafts. */
  datatype InvoiceStatus = Draft | Sent | Paid | Overdue | Cancelled

  const DefaultInvoiceStatus: InvoiceStatus := Draft

  /** The enum's labels as stored and as the API passes them. */
  function StatusLabel(st: InvoiceStatus): string {
    match st
    case Draft => "draft"
    case Sent => "sent"
    case Paid => "paid"
    case Overdue => "overdue"
    case Cancelled => "cancelled"
  }

  /** The status a label names; `None` for text the enum does not accept. */
  function StatusFromLabel(text: string): (r: Option<InvoiceStatus>)
    ensures r.Some? ==> StatusLabel(r.value) == text
  {
    if text == "draft" then Some(Draft)
    else if text == "sent" then Some(Sent)
    else if text == "paid" then Some(Paid)
    else if text == "overdue" then Some(Overdue)
    else if text == "cancelled" then Some(Cancelled)
    else None
  }

  /** Every status reads back from its label, so the five labels are distinct. */
  lemma StatusLabelRoundTrip(st: InvoiceStatus)
    ensures StatusFromLabel(StatusLabel(st)) == Some(st)
  {
  }

  /** subtotal, taxAmount and total are `numeric(10, 2)`, taxRate is `numeric(5, 2)`. */
  const MoneyPrecision: nat := 10
  const TaxRatePrecision: nat := 5

  /** One row. `userId` references a profile (deleting it deletes the invoice),
      `clientId` a client (deleting it sets the reference to null); `invoiceNumber` is
      unique over the whole table. issueDate and total are required; dueDate,
      subtotal, taxRate, taxAmount and notes are nullable. Dates are kept as the
      "YYYY-MM-DD" text Postgres returns for a `date` column. */
  datatype InvoiceRow = InvoiceRow(
    id: nat,
    userId: nat,
    clientId: Option<nat>,
    invoiceNumber: string,
    status: InvoiceStatus,
    issueDate: string,
    dueDate: Option<string>,
    subtotal: Option<Numeric>,
    taxRate: Option<Numeric>,
    taxAmount: Option<Numeric>,
    total: Numeric,
    notes: Option<string>,
    createdAt: int,
    updatedAt: int)
}

/** The `invoice_items` table. */
module InvoiceItemsSchema {
  import opened SqlTypes

  /** quantity, unitPrice and amount are `numeric(10, 2)`. */
  const ItemNumericPrecision: nat := 10

  /** One row; `invoiceId` references an invoice (deleting the invoice deletes the row)
      and every column is required. */
  datatype ItemRow = ItemRow(
    id: nat,
    invoiceId: nat,
    description: string,
    quantity: Numeric,
    unitPrice: Numeric,
    amount: Numeric,
    createdAt: int)
}

/** The `clients` table. */
module ClientsSchema {
  import opened Wrappers

  /** A client is active or inactive; new rows are active. */
  datatype ClientStatus = Active | Inactive

  const DefaultClientStatus: ClientStatus := Active

  /** One row; `userId` references a profile (deleting the profile deletes the row),
      `name` is required and the contact fields and notes are nullable. */
  datatype ClientRow = ClientRow(
    id: nat,
    userId: nat,
    name: string,
    email: Option<string>,
    phone: Option<string>,
    company: Option<string>,
    address: Option<string>,
    notes: Option<string>,
    status: ClientStatus,
    createdAt: int,
    updatedAt: int)
}

/** The household records the tracker keeps: inventory items and bills, and
    the outcome of submitting a form. */
module Records {
  import opened JsValues

  /** An essential supply. `location` is None when the stored record has no
      location; the timestamps are opaque ISO strings. */
  datatype InventoryItem = InventoryItem(
    id: string,
    name: string,
    quantity: JsNum,
    unit: string,
    dailyUsage: JsNum,
    location: Option<string>,
    createdAt: Option<string>,
    updatedAt: Option<string>)

  /** A recurring or one-off bill. `dueDate` is the stored text ("" when
      absent); `lastPaidDate` is set when the bill is marked paid. */
  datatype Bill = Bill(
    id: string,
    name: string,
    amount: JsNum,
    dueDate: string,
    recurring: bool,
    lastPaidDate: Option<string>,
    createdAt: Option<string>,
    updatedAt: Option<string>)

  /** A form submission either yields the record to store or shows an error. */
  datatype Submission<T> = Accepted(payload: T) | Rejected(message: string)
}

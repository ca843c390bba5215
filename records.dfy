/**
 * The records the handlers read, as the database queries project them. A field the
 * handlers read through `x || 0`, `parseFloat(x) || 0` or `x || "default"` is an
 * `Option`: `None` stands for a missing, null or non-numeric value.
 */
module Records {
  import opened Wrappers

  /** The string form of a MongoDB ObjectId: 24 hexadecimal characters. */
  type ObjectId = s: string | |s| == 24 witness "000000000000000000000000"

  /** `items.itemId` of an invoice line once populated with the item's name. */
  datatype ItemRef = ItemRef(id: ObjectId, itemName: Option<string>)

  /** A line of a sales invoice; `item` is `None` when the line has no (populated) item. */
  datatype LineItem = LineItem(item: Option<ItemRef>, quantity: Option<real>)

  /** `customerId` of an invoice once populated with the customer's display name. */
  datatype CustomerRef = CustomerRef(id: ObjectId, displayName: Option<string>)

  datatype Invoice = Invoice(
    customer: Option<CustomerRef>,
    lines: seq<LineItem>,
    paidStatus: string,
    paidAmount: Option<real>,
    totalAmount: real,
    saleAmount: Option<real>,
    createdAt: int)

  datatype Customer = Customer(id: ObjectId, createdAt: int)

  datatype Item = Item(
    id: ObjectId,
    itemName: Option<string>,
    itemImage: Option<string>,
    costPrice: Option<real>,
    categories: Option<string>,
    createdAt: int)

  /** One entry of the append-only stock ledger (`ItemTrack`). */
  datatype StockMovement = StockMovement(
    itemId: ObjectId,
    creditQuantity: Option<real>,
    debitQuantity: Option<real>,
    createdAt: int)

  datatype Expense = Expense(category: Option<string>, grandTotal: Option<real>, createdAt: int)

  /** An organization; `utcOffset` is its zone's offset in milliseconds, `None` when no zone is set. */
  datatype Organization = Organization(utcOffset: Option<int>)

  /** `organization.timeZoneExp || "UTC"`. */
  function ZoneOffset(org: Organization): int {
    org.utcOffset.GetOr(0)
  }

  /** An HTTP error response: its status code and the `message` of its JSON body. */
  datatype Failure = Failure(status: int, message: string)

  const ORGANIZATION_NOT_FOUND := Failure(404, "Organization not found!")

  /** `s || fallback` for a string field: a missing or empty string gives `fallback`. */
  function OrDefault(s: Option<string>, fallback: string): string {
    match s
    case Some(v) => if v == "" then fallback else v
    case None => fallback
  }

  /** `s || null` for a string field: an empty string counts as missing. */
  function NonEmpty(s: Option<string>): Option<string> {
    match s
    case Some(v) => if v == "" then None else s
    case None => None
  }

  /** A line of an invoice, together with the invoice it belongs to. */
  datatype InvoiceLine = InvoiceLine(invoice: Invoice, line: LineItem)

  /** The lines of one invoice, in order. */
  function LinesOfInvoice(inv: Invoice): (r: seq<InvoiceLine>)
    ensures |r| == |inv.lines|
    ensures forall j :: 0 <= j < |r| ==> r[j] == InvoiceLine(inv, inv.lines[j])
  {
    seq(|inv.lines|, j requires 0 <= j < |inv.lines| => InvoiceLine(inv, inv.lines[j]))
  }

  /** `invoices.forEach(inv => inv.items.forEach(item => ...))`: every line, invoice by invoice. */
  function LinesOf(invoices: seq<Invoice>): (r: seq<InvoiceLine>)
    ensures forall i :: 0 <= i < |r| ==> r[i].invoice in invoices && r[i].line in r[i].invoice.lines
    decreases |invoices|
  {
    if invoices == [] then []
    else
      var prefix := invoices[..|invoices| - 1];
      var rest := LinesOf(prefix);
      var last := LinesOfInvoice(invoices[|invoices| - 1]);
      assert forall i :: 0 <= i < |rest| ==> rest[i].invoice in invoices by {
        forall i | 0 <= i < |rest|
          ensures rest[i].invoice in invoices
        {
          var k :| 0 <= k < |prefix| && prefix[k] == rest[i].invoice;
          assert invoices[k] == prefix[k];
        }
      }
      rest + last
  }

  /** The item id of a line, `None` when the line has no item. */
  function ItemIdOf(l: InvoiceLine): Option<ObjectId> {
    match l.line.item
    case Some(ref) => Some(ref.id)
    case None => None
  }

  /** Lines carrying item `id`. */
  function CarriesItem(id: ObjectId): InvoiceLine -> bool {
    l => ItemIdOf(l) == Some(id)
  }

  /** `inv.createdDateTime`, the instant the window filter looks at. */
  function InvoiceTime(inv: Invoice): int {
    inv.createdAt
  }

  /** `item.itemId.itemName || "Undefined"`. */
  function ProductName(l: InvoiceLine): string {
    match l.line.item
    case Some(ref) => OrDefault(ref.itemName, "Undefined")
    case None => "Undefined"
  }
}

/** The rows the spreadsheet-backed store hands out: orders and products.
    Every text column may be missing from a row, which JavaScript sees as
    `undefined`; numeric columns are modelled as integers. */
module Records {
  import opened Common

  /** An order row, with the columns the dashboard and the booking script read. */
  datatype Order = Order(
    orderId: Option<string>,
    customerName: Option<string>,
    contact: Option<string>,
    addressDetails: Option<string>,
    province: Option<string>,
    city: Option<string>,
    district: Option<string>,
    barangay: Option<string>,
    packageSize: Option<string>,
    itemCategory: Option<string>,
    productName: Option<string>,
    trackingNumber: Option<string>,
    paymentStatus: Option<string>,
    shippingStatus: Option<string>,
    date: Option<string>,
    quantity: Option<int>,
    price: Option<int>)

  /** A product row. */
  datatype Product = Product(
    productId: Option<string>,
    name: Option<string>,
    description: Option<string>,
    category: Option<string>,
    size: Option<string>,
    qrCodeUrl: Option<string>,
    price: int,
    stock: int)

  /** An entry of the address lists (provinces, cities, barangays). */
  datatype Address = Address(id: string, name: string)

  /** A text column is truthy when present and not the empty string. */
  predicate Truthy(v: Option<string>) {
    v.Some? && v.value != ""
  }

  /** `v || fallback` for a text column. */
  function TextOr(v: Option<string>, fallback: string): (r: string)
    ensures Truthy(v) ==> r == v.value
    ensures !Truthy(v) ==> r == fallback
  {
    if Truthy(v) then v.value else fallback
  }

  /** `v || fallback` for a numeric column: a missing value and 0 are falsy. */
  function NumberOr(v: Option<int>, fallback: int): (r: int)
    ensures v.Some? && v.value != 0 ==> r == v.value
    ensures (v.None? || v.value == 0) ==> r == fallback
  {
    if v.Some? && v.value != 0 then v.value else fallback
  }
}

/**
 * The operations console's records, limited to the fields its pages compute
 * with. Optional fields that the pages guard with `?.` or `||` are `Option`s.
 */
module WmsTypes {
  import opened Wrappers

  datatype Product = Product(
    id: string,
    sku: string,
    barcode: string,
    name: string,
    category: Option<string>)

  /** A shelf location; the pages use only its code. */
  datatype Location = Location(id: string, code: string)

  datatype InventoryItem = InventoryItem(
    id: string,
    quantity: int,
    product: Option<Product>,
    location: Option<Location>)

  /** An order line; a missing quantity is read as 0 by the order page. */
  datatype OrderLine = OrderLine(id: string, quantity: Option<int>)

  /** An order as the API returns it; `status` holds the backend's status value. */
  datatype Order = Order(
    id: string,
    orderNumber: string,
    status: int,
    orderLines: Option<seq<OrderLine>>)

  /**
   * The signed-in user's `role` as it arrives. The auth hook declares it a
   * string and the layout compares it with strings such as "0" and "Admin";
   * a number can only arrive through the untyped JSON of the login response.
   */
  datatype RoleValue = RoleText(text: string) | RoleNumber(n: int)
}

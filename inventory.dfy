/**
 * The stock page: its statistics cards, the row filter, the quantity tag and
 * row highlight, and the adjust and transfer forms.
 */
module Inventory {
  import opened Wrappers
  import opened Strings
  import opened Seqs
  import opened WmsTypes

  /** A quantity at or below this is low stock. */
  const LowStockLimit: int := 5

  function IsLowStock(i: InventoryItem): bool {
    i.quantity <= LowStockLimit
  }

  function IsOutOfStock(i: InventoryItem): bool {
    i.quantity == 0
  }

  /** `inventory.reduce((sum, i) => sum + i.quantity, acc)`, left to right. */
  function ReduceQuantities(acc: int, inventory: seq<InventoryItem>): int
    decreases |inventory|
  {
    if inventory == [] then acc else ReduceQuantities(acc + inventory[0].quantity, inventory[1..])
  }

  /** The statistics cards. */
  function TotalItems(inventory: seq<InventoryItem>): nat {
    |inventory|
  }

  function TotalQuantity(inventory: seq<InventoryItem>): int {
    ReduceQuantities(0, inventory)
  }

  function LowStockItems(inventory: seq<InventoryItem>): nat {
    |Filter(inventory, IsLowStock)|
  }

  function OutOfStockItems(inventory: seq<InventoryItem>): nat {
    |Filter(inventory, IsOutOfStock)|
  }

  /** Reference sum, right to left. */
  function SumQuantities(inventory: seq<InventoryItem>): int {
    if inventory == [] then 0 else inventory[0].quantity + SumQuantities(inventory[1..])
  }

  lemma {:induction false} ReduceQuantitiesIsSum(acc: int, inventory: seq<InventoryItem>)
    ensures ReduceQuantities(acc, inventory) == acc + SumQuantities(inventory)
    decreases |inventory|
  {
    if inventory != [] {
      ReduceQuantitiesIsSum(acc + inventory[0].quantity, inventory[1..]);
    }
  }

  /** Out-of-stock items are low-stock items, and both are among all items. */
  lemma StockCountsOrdered(inventory: seq<InventoryItem>)
    ensures OutOfStockItems(inventory) <= LowStockItems(inventory) <= TotalItems(inventory)
  {
    FilterCountMonotone(inventory, IsOutOfStock, IsLowStock);
  }

  /**
   * With no negative quantity, the quantity card is the sum of the rows and at
   * least 6 for every item that is not low stock.
   */
  lemma {:induction false} TotalQuantityBounds(inventory: seq<InventoryItem>)
    requires forall k :: 0 <= k < |inventory| ==> inventory[k].quantity >= 0
    ensures TotalQuantity(inventory) == SumQuantities(inventory)
    ensures TotalQuantity(inventory) >= (LowStockLimit + 1) * (TotalItems(inventory) - LowStockItems(inventory))
    decreases |inventory|
  {
    ReduceQuantitiesIsSum(0, inventory);
    if inventory != [] {
      TotalQuantityBounds(inventory[1..]);
    }
  }

  /** The quantity tag's colour. */
  function QuantityTag(q: int): (r: string)
    ensures r == "error" <==> q == 0
    ensures r == "warning" <==> q != 0 && q <= LowStockLimit
    ensures r == "success" <==> q > LowStockLimit
  {
    if q == 0 then "error" else if q <= LowStockLimit then "warning" else "success"
  }

  /** The row highlight class; "" for an ordinary row. */
  function RowClass(q: int): (r: string)
    ensures r == "outOfStock" <==> q == 0
    ensures r == "lowStock" <==> q != 0 && q <= LowStockLimit
    ensures r == "" <==> q > LowStockLimit
  {
    if q == 0 then "outOfStock" else if q <= LowStockLimit then "lowStock" else ""
  }

  /** The tag and the row highlight classify every quantity the same way as the cards. */
  lemma TagAndRowAgree(i: InventoryItem)
    ensures QuantityTag(i.quantity) == "error" <==> RowClass(i.quantity) == "outOfStock"
    ensures RowClass(i.quantity) == "outOfStock" <==> IsOutOfStock(i)
    ensures QuantityTag(i.quantity) != "success" <==> IsLowStock(i)
    ensures RowClass(i.quantity) != "" <==> IsLowStock(i)
  {
  }

  /** `matchesSearch`: an empty search, or a hit in name, SKU, barcode or location code. */
  predicate MatchesSearch(i: InventoryItem, search: string, lower: string -> string) {
    search == ""
    || (i.product.Some? && i.product.value.name != "" && Contains(lower(i.product.value.name), lower(search)))
    || (i.product.Some? && i.product.value.sku != "" && Contains(lower(i.product.value.sku), lower(search)))
    || (i.product.Some? && i.product.value.barcode != "" && Contains(i.product.value.barcode, search))
    || (i.location.Some? && i.location.value.code != "" && Contains(lower(i.location.value.code), lower(search)))
  }

  /**
   * The barcode is compared as typed while the other fields are lower-cased:
   * when the lower-cased name, SKU and location code all miss the lower-cased
   * query, a non-empty query matches exactly when the barcode contains it
   * verbatim.
   */
  lemma BarcodeMatchIsExact(i: InventoryItem, search: string, lower: string -> string)
    requires search != "" && i.product.Some?
    requires !Contains(lower(i.product.value.name), lower(search))
    requires !Contains(lower(i.product.value.sku), lower(search))
    requires i.location.None? || !Contains(lower(i.location.value.code), lower(search))
    ensures MatchesSearch(i, search, lower) <==> i.product.value.barcode != "" && Contains(i.product.value.barcode, search)
  {
  }

  /** The route shows only low stock when its path contains `low-stock`. */
  predicate IsLowStockRoute(pathname: string) {
    Contains(pathname, "low-stock")
  }

  /** A row is shown when it matches the search, no warehouse is selected, and the route allows it. */
  predicate KeepsRow(i: InventoryItem, search: string, selectedWarehouse: Option<string>, pathname: string,
                     lower: string -> string) {
    MatchesSearch(i, search, lower)
    && !TruthyText(selectedWarehouse)
    && (!IsLowStockRoute(pathname) || IsLowStock(i))
  }

  /** `filteredInventory` */
  function FilteredInventory(inventory: seq<InventoryItem>, search: string, selectedWarehouse: Option<string>,
                             pathname: string, lower: string -> string): (r: seq<InventoryItem>)
    ensures |r| <= |inventory|
  {
    Filter(inventory, i => KeepsRow(i, search, selectedWarehouse, pathname, lower))
  }

  /** The table shows rows of the loaded list, in order, and exactly those the filter keeps. */
  lemma FilteredInventoryRows(inventory: seq<InventoryItem>, search: string, selectedWarehouse: Option<string>,
                              pathname: string, lower: string -> string, x: InventoryItem)
    ensures IsSubsequence(FilteredInventory(inventory, search, selectedWarehouse, pathname, lower), inventory)
    ensures x in FilteredInventory(inventory, search, selectedWarehouse, pathname, lower)
        <==> x in inventory && KeepsRow(x, search, selectedWarehouse, pathname, lower)
  {
    var keep := i => KeepsRow(i, search, selectedWarehouse, pathname, lower);
    FilterIsSubsequence(inventory, keep);
    FilterMembership(inventory, keep, x);
  }

  /** Selecting a warehouse empties the table: the filter never compares the row's warehouse. */
  lemma WarehouseSelectionHidesAll(inventory: seq<InventoryItem>, search: string, selectedWarehouse: Option<string>,
                                   pathname: string, lower: string -> string)
    requires TruthyText(selectedWarehouse)
    ensures FilteredInventory(inventory, search, selectedWarehouse, pathname, lower) == []
  {
    FilterDropsAll(inventory, i => KeepsRow(i, search, selectedWarehouse, pathname, lower));
  }

  /** With no search, no warehouse and an ordinary route, every row is shown. */
  lemma NoFilterShowsAll(inventory: seq<InventoryItem>, selectedWarehouse: Option<string>, pathname: string,
                         lower: string -> string)
    requires !TruthyText(selectedWarehouse) && !IsLowStockRoute(pathname)
    ensures FilteredInventory(inventory, "", selectedWarehouse, pathname, lower) == inventory
  {
    FilterKeepsAll(inventory, i => KeepsRow(i, "", selectedWarehouse, pathname, lower));
  }

  /** On the low-stock route every row shown is low stock. */
  lemma LowStockRouteShowsLowStock(inventory: seq<InventoryItem>, search: string, selectedWarehouse: Option<string>,
                                   pathname: string, lower: string -> string)
    requires IsLowStockRoute(pathname)
    ensures forall x :: x in FilteredInventory(inventory, search, selectedWarehouse, pathname, lower) ==> IsLowStock(x)
  {
  }

  /** The adjust form: current and new quantity both start at the row's quantity. */
  datatype AdjustForm = AdjustForm(currentQuantity: int, newQuantity: int)

  function OpenAdjustForm(record: InventoryItem): (r: AdjustForm)
    ensures r.currentQuantity == r.newQuantity == record.quantity
  {
    AdjustForm(record.quantity, record.quantity)
  }

  /** `quantityChange`: the signed change sent to the adjust call. */
  function AdjustDelta(form: AdjustForm): (r: int)
    ensures form.currentQuantity + r == form.newQuantity
    ensures r < 0 <==> form.newQuantity < form.currentQuantity
  {
    form.newQuantity - form.currentQuantity
  }

  /**
   * Saving the form unedited sends a change of 0; the change sent lands the
   * row on the quantity entered, which the form keeps at 0 or more.
   */
  lemma AdjustUneditedIsNoChange(record: InventoryItem, newQuantity: int)
    requires newQuantity >= 0
    ensures AdjustDelta(OpenAdjustForm(record)) == 0
    ensures record.quantity + AdjustDelta(OpenAdjustForm(record).(newQuantity := newQuantity)) >= 0
  {
  }

  /** The transfer button is disabled on an empty row. */
  predicate TransferEnabled(record: InventoryItem) {
    record.quantity != 0
  }

  /** The transfer form starts at 1 and accepts 1 up to `quantity || 1`. */
  const TransferStart: int := 1

  function TransferMax(record: InventoryItem): (r: int)
    ensures record.quantity != 0 ==> r == record.quantity
    ensures record.quantity == 0 ==> r == 1
  {
    if record.quantity != 0 then record.quantity else 1
  }

  /** Whenever the transfer dialog opens on a non-negative row, its start value is in range and never exceeds the stock. */
  lemma TransferRangeValid(record: InventoryItem)
    requires TransferEnabled(record) && record.quantity >= 0
    ensures 1 <= TransferStart <= TransferMax(record) == record.quantity
  {
  }
}

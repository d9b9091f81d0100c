# Warehouse console: module enablement and derived page state

This project models the logic of a warehouse management system's two web
front ends.

The Angular administration console lets an operator choose a warehouse and
enable, configure or disable modules for it. A module is a capability from a
catalog of module definitions. Each warehouse module carries an execution
order, a required flag, a skip flag and two free-text settings.

- `ModuleConfig` models the configuration dialog. It covers:
  - edit-mode detection;
  - the proposed execution order;
  - the default form;
  - validation and the enable request the dialog sends;
  - how the dialog closes.
- `ModuleList` models the module list screen. It covers:
  - warehouse auto-selection;
  - the sorted module list;
  - the enabled, status-text and status-colour lookups;
  - the reload after the dialog closes;
  - the guarded disable.

Both components are classes whose methods update their fields. A service call
is a parameter of the method that makes it: an `Outcome` that is either the
response body or a failure carrying the server's error text. Every call is
appended to a ghost request log, so "no request is sent" can be stated.
Confirmations and dialog results are boolean parameters. Snackbar messages are
recorded as `Notice`s.

The React operations console derives its page state with pure expressions.
These are modelled as functions:

- `Orders`: status mapping, route shortcuts, the status-card toggle, status-summary entries, and row and summary totals;
- `Inventory`: statistics, row filter, quantity classification, adjust and transfer forms;
- `Products`: the search and category filter;
- `MainLayout`: menu dispatch, selected and open menu keys, role label.

Shared modules:

- `Wrappers`: `Option` and JavaScript's `||` on optional text;
- `Strings`: `startsWith`, `includes` and the `trim` whitespace set;
- `Seqs`: `filter` and the sub-sequence relation it establishes;
- `ModuleModel` and `WmsTypes`: the records.

`toLowerCase` and `JSON.parse` are parameters (`lower`, `parses`) of
the functions that use them.

## Model

| member | source | states |
|---|---|---|
| ModuleModel.FindByCode | frontend-admin/src/app/components/module-config/module-config.component.ts:40-42 | `find` by module code: none exactly when no module has the code, otherwise the module at the first index with it |
| ModuleModel.FindByCodeUnique | frontend-admin/src/app/components/module-list/module-list.component.ts:99-101 | with unique module codes, the lookup returns the one module that has the code |
| ModuleModel.FailureText | frontend-admin/src/app/components/module-list/module-list.component.ts:142 | the snackbar shows the server's error text when it is non-empty, else the fixed fallback |
| ModuleConfig.MaxOrder | frontend-admin/src/app/components/module-config/module-config.component.ts:46-48 | `Math.max` over a non-empty module list is an upper bound of every order and is attained |
| ModuleConfig.MaxOrderOrZero | frontend-admin/src/app/components/module-config/module-config.component.ts:46-48 | the `maxOrder` value: the maximum order of a non-empty list, 0 for an empty one (stated through `MaxOrder` and `FirstModuleOrder`) |
| ModuleConfig.NextOrder | frontend-admin/src/app/components/module-config/module-config.component.ts:49 | a configured module with a non-zero order keeps it; otherwise the proposed order exceeds every existing order |
| ModuleConfig.ExistingModule | frontend-admin/src/app/components/module-config/module-config.component.ts:40-42 | the configured module with the definition's code, if any; `EditModeIff` states it exists iff some module has the code |
| ModuleConfig.EditModeIff | frontend-admin/src/app/components/module-config/module-config.component.ts:40-43 | edit mode holds iff some warehouse module's code equals the definition's code |
| ModuleConfig.FirstModuleOrder | frontend-admin/src/app/components/module-config/module-config.component.ts:46-49 | a warehouse with no modules is offered order 10 |
| ModuleConfig.NewModuleOrderedLast | frontend-admin/src/app/components/module-config/module-config.component.ts:46-49 | a module not yet configured is offered max + 10, which exceeds every existing order |
| ModuleConfig.ExistingModuleOrder | frontend-admin/src/app/components/module-config/module-config.component.ts:49 | a configured module keeps its order unless that order is 0, which falls back to max + 10 |
| ModuleConfig.DefaultFlags | frontend-admin/src/app/components/module-config/module-config.component.ts:54-55 | default `isRequired` is existing OR definition; default `canSkip` is the existing value, else NOT definition.isRequired |
| ModuleConfig.DefaultTexts | frontend-admin/src/app/components/module-config/module-config.component.ts:56-57 | skip conditions: existing text or ""; custom settings: existing text, else the definition's defaults, else "" |
| ModuleConfig.DefaultForm | frontend-admin/src/app/components/module-config/module-config.component.ts:52-58 | the initial form: its order is `NextOrder` (`FirstModuleOrder`, `NewModuleOrderedLast`, `ExistingModuleOrder`), its flags and texts are as `DefaultFlags` and `DefaultTexts` state, and it is valid when no order is negative (`DefaultFormValid`) |
| ModuleConfig.DefaultFormValid | frontend-admin/src/app/components/module-config/module-config.component.ts:46-53 | when no order is negative, the proposed form passes the required and min(1) validators |
| ModuleConfig.OrderBoundary | frontend-admin/src/app/components/module-config/module-config.component.ts:53 | an order of 0 or a missing order is rejected; 1 is accepted |
| ModuleConfig.FormValid | frontend-admin/src/app/components/module-config/module-config.component.ts:53 | the `required` and `min(1)` validators; `OrderBoundary` states 0 and a missing order fail and 1 passes |
| ModuleConfig.BuildRequest | frontend-admin/src/app/components/module-config/module-config.component.ts:75-83 | the request carries the dialog's warehouse and definition ids; an empty text is sent as absent; reading the request back gives the form (round trip) |
| ModuleConfig.ResubmitExisting | frontend-admin/src/app/components/module-config/module-config.component.ts:49-83 | an unedited edit form re-sends the module's order, skip flag and skip condition (an empty one goes out absent), and its custom settings only when they are non-empty, the definition's default settings otherwise |
| ModuleConfig.TitleFor | frontend-admin/src/app/components/module-config/module-config.component.ts:61-65 | exactly "Configure " + name in edit mode and "Enable " + name otherwise: the prefix is fixed by the mode, the name ends the title, and nothing lies between them |
| ModuleConfig.SavedText | frontend-admin/src/app/components/module-config/module-config.component.ts:85-86 | "Module updated successfully" exactly in edit mode, "Module enabled successfully" exactly otherwise |
| ModuleConfig.IsJsonValid | frontend-admin/src/app/components/module-config/module-config.component.ts:108-116 | empty or whitespace-only text is valid without parsing; any other text is valid iff it parses |
| ModuleConfig.ModuleConfigComponent.constructor | frontend-admin/src/app/components/module-config/module-config.component.ts:24-36 | a fresh dialog is idle, not in edit mode, not closed, with no notices and no requests |
| ModuleConfig.ModuleConfigComponent.NgOnInit | frontend-admin/src/app/components/module-config/module-config.component.ts:38-59 | sets the existing module, the edit mode and the default form; sends nothing |
| ModuleConfig.ModuleConfigComponent.Title | frontend-admin/src/app/components/module-config/module-config.component.ts:61-65 | the getter is `TitleFor` of the edit mode and the definition's name |
| ModuleConfig.ModuleConfigComponent.EditForm | frontend-admin/src/app/components/module-config/module-config.component.ts:52-58 | the user's edits replace the form and nothing else |
| ModuleConfig.ModuleConfigComponent.OnSubmit | frontend-admin/src/app/components/module-config/module-config.component.ts:67-102 | an invalid form sends nothing and changes nothing. A valid form sends exactly BuildRequest of the form. Success closes the dialog with true and adds an updated or enabled notice. Failure leaves the dialog open, clears `loading` and shows the failure text |
| ModuleConfig.ModuleConfigComponent.OnCancel | frontend-admin/src/app/components/module-config/module-config.component.ts:104-106 | closes with false and sends nothing |
| ModuleList.SortByExecutionOrder | frontend-admin/src/app/components/module-list/module-list.component.ts:80 | the stored list is sorted ascending by execution order and is a permutation of the response |
| ModuleList.SortedByOrder | frontend-admin/src/app/components/module-list/module-list.component.ts:80 | ascending by execution order; every stored list satisfies it (the component invariant `Valid`) |
| ModuleList.SortedMaxIsLast | frontend-admin/src/app/components/module-list/module-list.component.ts:80 | in the sorted list, the last module has the maximum order (the one the dialog adds 10 to) |
| ModuleList.IsModuleEnabled | frontend-admin/src/app/components/module-list/module-list.component.ts:95-97 | true iff some module has the code and is enabled |
| ModuleList.EnabledAgreesWithLookup | frontend-admin/src/app/components/module-list/module-list.component.ts:95-101 | with unique codes, enabled iff the looked-up module exists and is enabled |
| ModuleList.GetModuleForDefinition | frontend-admin/src/app/components/module-list/module-list.component.ts:99-101 | a found module is in the list and carries the definition's code; nothing is found iff no module has that code |
| ModuleList.StatusText | frontend-admin/src/app/components/module-list/module-list.component.ts:155-159 | Disabled iff not enabled; Required iff enabled and required; Active iff enabled and not required |
| ModuleList.StatusColor | frontend-admin/src/app/components/module-list/module-list.component.ts:149-153 | warn, primary and accent under the same three conditions |
| ModuleList.StatusColourMatchesText | frontend-admin/src/app/components/module-list/module-list.component.ts:149-159 | two modules have the same text iff they have the same colour; each text pairs with its colour |
| ModuleList.DisableRequestFor | frontend-admin/src/app/components/module-list/module-list.component.ts:122-135 | a disable request exists iff a warehouse is selected, the module is not required and the user confirmed; it carries the warehouse id and the module type |
| ModuleList.RequiredNeverDisabled | frontend-admin/src/app/components/module-list/module-list.component.ts:125-128 | a module shown as Required never yields a disable request |
| ModuleList.ModuleListComponent.constructor | frontend-admin/src/app/components/module-list/module-list.component.ts:18-34 | a fresh screen holds nothing, has no selection and has sent nothing |
| ModuleList.ModuleListComponent.LoadWarehouseModules | frontend-admin/src/app/components/module-list/module-list.component.ts:74-89 | no selection: nothing is sent or changed. Otherwise it requests the selected warehouse's modules and ends with `loading` false. The result is `ModulesLoaded`: on success the list is a sorted permutation of the response and no notice is added; on failure the old list stays and "Failed to load modules" is added |
| ModuleList.ModulesLoaded | frontend-admin/src/app/components/module-list/module-list.component.ts:78-87 | the outcome of a module load: on success a sorted permutation of the response and no new notice; on failure the previous list and a "Failed to load modules" notice |
| ModuleList.ModuleListComponent.WarehousesArrived | frontend-admin/src/app/components/module-list/module-list.component.ts:44-56 | the warehouses callback. A non-empty list selects its first warehouse and requests its modules, with the `ModulesLoaded` outcome. An empty list keeps the selection, the modules and the notices. Failure keeps the list and adds "Failed to load warehouses". `loading` ends false |
| ModuleList.ModuleListComponent.LoadWarehouses | frontend-admin/src/app/components/module-list/module-list.component.ts:41-58 | logs the warehouses request, then has exactly the callback's effects, for each of the three cases |
| ModuleList.ModuleListComponent.DefinitionsArrived | frontend-admin/src/app/components/module-list/module-list.component.ts:63-70 | the definitions callback: stores the catalog on success, keeps it on failure (no notice), always clears `loadingDefinitions`, touches nothing else |
| ModuleList.ModuleListComponent.LoadModuleDefinitions | frontend-admin/src/app/components/module-list/module-list.component.ts:60-72 | logs the catalog request, then has the callback's effects |
| ModuleList.ModuleListComponent.NgOnInit | frontend-admin/src/app/components/module-list/module-list.component.ts:36-39 | the warehouses and catalog requests go out first; the first warehouse's modules are requested only after the warehouses arrive, so the log is warehouses, definitions, then modules. Empty or failed warehouses: no modules request, selection and modules unchanged, notices unchanged or plus the warehouses error |
| ModuleList.ModuleListComponent.OnWarehouseChange | frontend-admin/src/app/components/module-list/module-list.component.ts:91-93 | the chosen warehouse becomes the selection and its modules are requested, with the `ModulesLoaded` outcome (a failure keeps the previous warehouse's list under the new selection); the catalog and its loading flag are untouched |
| ModuleList.ModuleListComponent.OpenEnableDialog | frontend-admin/src/app/components/module-list/module-list.component.ts:103-120 | with no selection nothing changes. Otherwise it opens the dialog on the selected warehouse and the current modules. It reloads only when the dialog closes with true, with the `ModulesLoaded` outcome; otherwise nothing else changes |
| ModuleList.ModuleListComponent.DisableModule | frontend-admin/src/app/components/module-list/module-list.component.ts:122-147 | no request without a selection, for a required module, or without confirmation. A required module gets a warning. Success adds "Module disabled successfully" and reloads, with the `ModulesLoaded` outcome after that notice. Failure does not reload, clears `loading` and shows the failure text |
| Orders.MapStatusForApi | frontend/src/pages/Orders.tsx:392-413 | null maps to null; a value outside the page enum passes through unchanged; the per-status table is `MapStatusTable` |
| Orders.MapStatusTable | frontend/src/pages/Orders.tsx:394-410 | Pending to Created (0), Processing to Approved (1), Picking to 2, Packing to 3, Shipped to 4, Completed to Delivered (5), Cancelled to 6; Confirmed, Packed and InvoiceOnly go out as their own value |
| Orders.MapStatusNotInjective | frontend/src/pages/Orders.tsx:398-411 | Confirmed and Processing both go out as 1; Packed and Completed both as 5 |
| Orders.MapStatusRange | frontend/src/pages/Orders.tsx:392-413 | page statuses other than InvoiceOnly land in backend 0..6; InvoiceOnly goes out as 9 |
| Orders.MapStatusNeverReturned | frontend/src/pages/Orders.tsx:392-413 | backend Returned (7) is never requested, for any status value the page holds |
| Orders.MapStatusCoversBackend | frontend/src/pages/Orders.tsx:392-413 | every backend status 0..6 is requested by some page status |
| Orders.RouteStatus | frontend/src/pages/Orders.tsx:103-119 | the first route check the lower-cased path passes decides the status, in the order pending, picking (or bare /picking), packing (or bare /packing), shipped, completed, cancelled (or /returns); no status exactly when no check passes |
| Orders.PendingRoute | frontend/src/pages/Orders.tsx:104 | the pending check; `RouteStatus` selects Pending whenever it passes |
| Orders.PickingRoute | frontend/src/pages/Orders.tsx:107 | the picking check, bare /picking included; `RouteStatus` selects Picking when it is the first to pass |
| Orders.PackingRoute | frontend/src/pages/Orders.tsx:109 | the packing check, bare /packing included; `RouteStatus` selects Packing when it is the first to pass |
| Orders.ShippedRoute | frontend/src/pages/Orders.tsx:111 | the shipped check; `RouteStatus` selects Shipped when it is the first to pass |
| Orders.CompletedRoute | frontend/src/pages/Orders.tsx:113 | the completed check; `RouteStatus` selects Completed when it is the first to pass |
| Orders.CancelledRoute | frontend/src/pages/Orders.tsx:115 | the cancelled or /returns check; `RouteStatus` selects Cancelled when it is the first to pass |
| Orders.RouteOutsideOrders | frontend/src/pages/Orders.tsx:103-119 | outside /orders/ and the bare /picking and /packing, the path selects Cancelled iff it contains /returns, and none otherwise |
| Orders.RouteBarePaths | frontend/src/pages/Orders.tsx:106-109 | exactly /picking selects Picking and exactly /packing selects Packing |
| Orders.RouteReturns | frontend/src/pages/Orders.tsx:115-116 | /returns selects Cancelled |
| Orders.RouteAllOrders | frontend/src/pages/Orders.tsx:117-118 | plain /orders selects no status |
| Orders.HandleStatusFilter | frontend/src/pages/Orders.tsx:158-160 | clicking the selected status clears it; any other click selects the clicked one |
| Orders.StatusToggleTwice | frontend/src/pages/Orders.tsx:158-160 | a click on a status always changes the selection; from no selection, two clicks restore it |
| Orders.SummaryEntry | frontend/src/pages/Orders.tsx:145-149 | id is status ?? id; count is count or 0; the label is looked up by a non-zero status, else by the id, and falls back to the server's label, else "Bilinmeyen", when the looked-up value has no table entry; the label is never empty |
| Orders.StatusLabel | frontend/src/pages/Orders.tsx:65-76 | a label exists exactly for the ten page statuses, and none is empty |
| Orders.PendingEntryLabel | frontend/src/pages/Orders.tsx:146-147 | a status-0 entry keeps id 0 but takes its label from its id's table entry; with no id or an id outside the table, the server's label, else "Bilinmeyen" |
| Orders.RowQuantityIsSum | frontend/src/pages/Orders.tsx:330-331 | a row's quantity is the sum of its line quantities, a missing quantity counting 0 |
| Orders.LineQuantity | frontend/src/pages/Orders.tsx:331 | `line.quantity || 0`; `RowQuantityIsSum` and `SummaryMatchesRows` add it up |
| Orders.ReduceLineQuantities | frontend/src/pages/Orders.tsx:331 | the line reduce; `ReduceLinesIsSum` states it equals the start value plus the reference sum |
| Orders.ReduceLinesIsSum | frontend/src/pages/Orders.tsx:331 | the left fold over lines equals its start value plus the right-recursive reference sum |
| Orders.RowLineCount | frontend/src/pages/Orders.tsx:322 | `orderLines?.length || 0`; `SummaryMatchesRows` states the summary adds these cells up |
| Orders.RowQuantity | frontend/src/pages/Orders.tsx:330-331 | the row quantity; `RowQuantityIsSum` states it is the sum of the line quantities |
| Orders.SummaryMatchesRows | frontend/src/pages/Orders.tsx:387-389 | totalItems equals the sum of the row line counts and the number of lines; totalQuantity equals the sum of the row quantities and of all line quantities |
| Orders.ReduceLineCounts | frontend/src/pages/Orders.tsx:387 | the totalItems reduce; `ReduceLineCountsIsSum` states it equals the start value plus the reference sum of row cells |
| Orders.ReduceLineCountsIsSum | frontend/src/pages/Orders.tsx:387 | the left fold of row line counts equals its start value plus the reference sum |
| Orders.ReduceOrderQuantities | frontend/src/pages/Orders.tsx:388-389 | the totalQuantity reduce; `ReduceOrderQuantitiesIsSum` states it equals the start value plus the reference sum of row quantities |
| Orders.ReduceOrderQuantitiesIsSum | frontend/src/pages/Orders.tsx:388-389 | the left fold of row quantities equals its start value plus the reference sum |
| Orders.SummaryTotalItems | frontend/src/pages/Orders.tsx:387 | the summary's item count; `SummaryMatchesRows` states it is the sum of the rows' line counts and the number of lines |
| Orders.SummaryTotalQuantity | frontend/src/pages/Orders.tsx:388-389 | the summary's quantity; `SummaryMatchesRows` states it is the sum of the rows' quantities and of all line quantities |
| Orders.ApproveCancelOnCreated | frontend/src/pages/Orders.tsx:351 | approve and cancel are offered exactly on orders whose backend status is the one the Pending card's filter asks for (Created), and on no order in a later backend state |
| Orders.OffersApproveCancel | frontend/src/pages/Orders.tsx:351 | the backend Created test on the record's status; `ApproveCancelOnCreated` ties it to the Pending card's filter |
| Inventory.StockCountsOrdered | frontend/src/pages/Inventory.tsx:83-86 | out-of-stock count ≤ low-stock count ≤ item count |
| Inventory.IsLowStock | frontend/src/pages/Inventory.tsx:85 | quantity at most 5; `TagAndRowAgree` states the tag and row class agree with it |
| Inventory.IsOutOfStock | frontend/src/pages/Inventory.tsx:86 | quantity exactly 0; `TagAndRowAgree` states the row class agrees with it |
| Inventory.TotalItems | frontend/src/pages/Inventory.tsx:83 | the item count; `StockCountsOrdered` bounds the other two counts by it |
| Inventory.TotalQuantity | frontend/src/pages/Inventory.tsx:84 | the quantity reduce; `TotalQuantityBounds` states it is the reference sum and its lower bound |
| Inventory.ReduceQuantities | frontend/src/pages/Inventory.tsx:84 | the left fold; `ReduceQuantitiesIsSum` states it equals the start value plus the reference sum |
| Inventory.ReduceQuantitiesIsSum | frontend/src/pages/Inventory.tsx:84 | the left fold over rows equals its start value plus the right-recursive reference sum |
| Inventory.LowStockItems | frontend/src/pages/Inventory.tsx:85 | the low-stock count; `StockCountsOrdered` places it between the out-of-stock count and the item count |
| Inventory.OutOfStockItems | frontend/src/pages/Inventory.tsx:86 | the out-of-stock count; `StockCountsOrdered` states it is at most the low-stock count |
| Inventory.TotalQuantityBounds | frontend/src/pages/Inventory.tsx:84-85 | with no negative quantity, totalQuantity is the sum of the quantities and at least 6 per item that is not low stock |
| Inventory.QuantityTag | frontend/src/pages/Inventory.tsx:180 | error iff 0; warning iff non-zero and ≤ 5; success iff > 5 |
| Inventory.RowClass | frontend/src/pages/Inventory.tsx:371-377 | outOfStock iff 0; lowStock iff non-zero and ≤ 5; no class iff > 5 |
| Inventory.TagAndRowAgree | frontend/src/pages/Inventory.tsx:371-377 | tag and row class classify alike, and agree with the low-stock and out-of-stock cards |
| Inventory.BarcodeMatchIsExact | frontend/src/pages/Inventory.tsx:250-253 | when the lower-cased name, SKU and location code all miss the lower-cased query, a non-empty query matches iff the barcode contains it as typed |
| Inventory.FilteredInventory | frontend/src/pages/Inventory.tsx:247-258 | the shown list is no longer than the loaded one |
| Inventory.FilteredInventoryRows | frontend/src/pages/Inventory.tsx:247-258 | the shown list is an order-preserving sub-sequence; a row is shown iff it is loaded and passes search, warehouse and route |
| Inventory.MatchesSearch | frontend/src/pages/Inventory.tsx:249-253 | an empty search or a hit in name, SKU, barcode or location code; `BarcodeMatchIsExact` states the barcode is matched as typed |
| Inventory.IsLowStockRoute | frontend/src/pages/Inventory.tsx:50 | the route mentions low-stock; `LowStockRouteShowsLowStock` states such a route shows only low stock |
| Inventory.KeepsRow | frontend/src/pages/Inventory.tsx:247-258 | the row filter; `FilteredInventoryRows` states a row is shown iff it is loaded and passes it |
| Inventory.WarehouseSelectionHidesAll | frontend/src/pages/Inventory.tsx:255 | once a warehouse is selected, no row is shown |
| Inventory.NoFilterShowsAll | frontend/src/pages/Inventory.tsx:247-258 | with no search, no warehouse and an ordinary route, every row is shown |
| Inventory.LowStockRouteShowsLowStock | frontend/src/pages/Inventory.tsx:256 | on a low-stock route, every row shown has quantity ≤ 5 |
| Inventory.OpenAdjustForm | frontend/src/pages/Inventory.tsx:88-95 | the adjust form starts with current = new = the row's quantity |
| Inventory.AdjustDelta | frontend/src/pages/Inventory.tsx:109 | current + delta = new; the delta is negative iff the new quantity is smaller |
| Inventory.AdjustUneditedIsNoChange | frontend/src/pages/Inventory.tsx:88-110 | saving unedited sends 0; any entered quantity ≥ 0 leaves the row non-negative |
| Inventory.TransferMax | frontend/src/pages/Inventory.tsx:475 | the maximum is the quantity when non-zero, else 1 |
| Inventory.TransferEnabled | frontend/src/pages/Inventory.tsx:239 | the transfer button is enabled iff the quantity is non-zero; `TransferRangeValid` states an enabled row's start value lies in range |
| Inventory.TransferRangeValid | frontend/src/pages/Inventory.tsx:474-475 | on an enabled non-negative row, the start value 1 lies within [1, quantity] |
| Products.FilteredProducts | frontend/src/pages/Products.tsx:224-232 | the shown list is no longer than the loaded one |
| Products.FilteredProductsRows | frontend/src/pages/Products.tsx:224-232 | an order-preserving sub-sequence; a product is kept iff it matches the search and the category |
| Products.MatchesSearch | frontend/src/pages/Products.tsx:225-229 | an empty search, a lower-cased hit in name or SKU, or a verbatim hit in the barcode; `NamePrefixFound` and `BarcodeMatchIsExact` state both kinds of hit |
| Products.MatchesCategory | frontend/src/pages/Products.tsx:230 | no category chosen, or the product's own; `CategoryNarrows` states every kept product has the chosen category |
| Products.KeepsProduct | frontend/src/pages/Products.tsx:231 | search and category both match; `FilteredProductsRows` states a product is kept iff it is loaded and passes it |
| Products.NoFilterShowsAll | frontend/src/pages/Products.tsx:226-230 | an empty search and no category keep every product |
| Products.CategoryNarrows | frontend/src/pages/Products.tsx:230 | with a category chosen, every kept product has exactly that category |
| Products.NamePrefixFound | frontend/src/pages/Products.tsx:227 | a query whose lower-cased form prefixes the lower-cased name finds the product |
| Products.BarcodeMatchIsExact | frontend/src/pages/Products.tsx:227-229 | when name and SKU miss, a non-empty query matches iff the barcode contains it as typed |
| MainLayout.HandleMenuClick | frontend/src/components/Layout/MainLayout.tsx:195-201 | logout iff the key is logout; no action iff it is a group key; otherwise navigate to exactly the key |
| MainLayout.IsGroupKey | frontend/src/components/Layout/MainLayout.tsx:198 | the three group keys; `HandleMenuClick` does nothing exactly for them |
| MainLayout.MenuEntriesNavigate | frontend/src/components/Layout/MainLayout.tsx:195-201 | every menu entry, the dashboard and the dropdown's profile and settings entries navigate to their own key (the last two as relative paths) |
| MainLayout.SelectedKeys | frontend/src/components/Layout/MainLayout.tsx:204-207 | the selection is the path alone |
| MainLayout.OpenKeys | frontend/src/components/Layout/MainLayout.tsx:209-221 | at most one key, always a group key; a path under an operations prefix opens Operations; no key exactly when the path has none of the operations, /settings or /reports prefixes |
| MainLayout.OperationsPath | frontend/src/components/Layout/MainLayout.tsx:211 | the seven operations prefixes; `OpenKeys` opens the operations group for every such path |
| MainLayout.OperationsEntriesOpenOperations | frontend/src/components/Layout/MainLayout.tsx:211-213 | every operations entry opens the operations group; the /stock prefix also covers /stock-receive, /stock-out and /stock-count |
| MainLayout.SettingsPathsOpenSettings | frontend/src/components/Layout/MainLayout.tsx:214-216 | every path starting with /settings opens the settings group |
| MainLayout.ReportsPathsOpenReports | frontend/src/components/Layout/MainLayout.tsx:217-219 | every path starting with /reports opens the reports group |
| MainLayout.MenuEntryOpensItsGroup | frontend/src/components/Layout/MainLayout.tsx:209-221 | opening the page at any menu entry opens that entry's group |
| MainLayout.UngroupedPathsOpenNothing | frontend/src/components/Layout/MainLayout.tsx:209-221 | the dashboard and paths that do not start with / open no group |
| MainLayout.RoleLabel | frontend/src/components/Layout/MainLayout.tsx:289 | Yönetici iff the role is '0' or 'Admin'; Müdür iff '1' or 'Manager'; otherwise Operatör |
| MainLayout.NumericRoleIsOperator | frontend/src/components/Layout/MainLayout.tsx:289 | a role delivered as a number is always labelled Operatör |

## Left out

- HTTP clients, interceptors and the module service are not part of this model. Each call is a parameter of the method that makes it, and the call is recorded in a ghost request log.
- RxJS and promise ordering are not modelled; responses are applied synchronously, in the order the methods are called. `NgOnInit` logs the warehouses and definitions requests first and the modules request after the warehouses response, as the source issues them; the warehouses response is then applied before the definitions response, although the real responses may arrive in either order (they write disjoint fields). Overlapping loads do not race in the model.
- The dialog, `confirm()`, snackbar and `message` UI are not modelled: results are boolean parameters and messages are recorded notices. Console logging is dropped.
- ModuleConfig.DefaultFlags: follows the declared `canSkip: boolean` of a configured module; the fallback to `!isRequired` for a configured module whose `canSkip` is undefined at run time (module-config.component.ts:55) is not modelled.
- ModuleList.SortByExecutionOrder: does not state that equal orders keep their relative order. `Array.prototype.sort` is stable, but the model states only sortedness and permutation.
- `sort` works in place on the response array, which the dialog also receives. The model stores a sorted copy, so aliasing between the two is not captured.
- Execution orders and quantities are integers. JavaScript numbers are floating point, so NaN, fractions and `Math.max` of an empty spread are not modelled; the empty list is handled by the source's own guard.
- `toLowerCase` is a parameter `lower`, and no Unicode case mapping is modelled. `JSON.parse` is a parameter `parses`, and only the blank short-circuit of `isJsonValid` is stated.
- Dates, the 90-day expiry check, `localeCompare` sorters and the `weight` field are not modelled: they involve clocks, locales and floating point.
- The Dashboard pages, Login, authentication and the wiring files are not part of this model. They hold no logic beyond fetching and rendering.
- JSX, CSS, icons, the static filter option lists and the inventory status map are presentation only.
- Record fields the modelled logic never reads (timestamps, addresses, weights) are omitted from the datatypes.

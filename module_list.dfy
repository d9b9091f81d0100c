/**
 * The module list page of the admin console (ModuleListComponent): it loads
 * the warehouses and the module catalog, keeps the selected warehouse's
 * modules sorted by execution order, derives each module's status, opens the
 * configuration dialog and disables modules behind a guard.
 */
module ModuleList {
  import opened Wrappers
  import opened ModuleModel
  import ModuleConfig

  /** Execution orders never decrease along the list. */
  predicate SortedByOrder(modules: seq<WarehouseModule>) {
    forall i, j :: 0 <= i < j < |modules| ==> modules[i].executionOrder <= modules[j].executionOrder
  }

  /**
   * `modules.sort((a, b) => a.executionOrder - b.executionOrder)`: a stable
   * insertion sort on execution order.
   */
  method SortByExecutionOrder(modules: seq<WarehouseModule>) returns (sorted: seq<WarehouseModule>)
    ensures SortedByOrder(sorted)
    ensures multiset(sorted) == multiset(modules)
  {
    sorted := [];
    var n := 0;
    while n < |modules|
      invariant 0 <= n <= |modules|
      invariant SortedByOrder(sorted)
      invariant multiset(sorted) == multiset(modules[..n])
    {
      var x := modules[n];
      var k := |sorted|;
      while k > 0 && sorted[k - 1].executionOrder > x.executionOrder
        invariant 0 <= k <= |sorted|
        invariant forall j :: k <= j < |sorted| ==> sorted[j].executionOrder > x.executionOrder
      {
        k := k - 1;
      }
      InsertKeepsSorted(sorted, k, x);
      InsertAddsOne(sorted, k, x);
      assert modules[..n + 1] == modules[..n] + [x];
      sorted := sorted[..k] + [x] + sorted[k..];
      n := n + 1;
    }
    assert modules[..n] == modules;
  }

  /**
   * One insertion step: placing `x` after every order not above it and before
   * every order above it keeps the list sorted.
   */
  lemma InsertKeepsSorted(sorted: seq<WarehouseModule>, k: int, x: WarehouseModule)
    requires SortedByOrder(sorted) && 0 <= k <= |sorted|
    requires k > 0 ==> sorted[k - 1].executionOrder <= x.executionOrder
    requires forall j :: k <= j < |sorted| ==> sorted[j].executionOrder > x.executionOrder
    ensures SortedByOrder(sorted[..k] + [x] + sorted[k..])
  {
    var r := sorted[..k] + [x] + sorted[k..];
    assert |r| == |sorted| + 1;
    forall i | 0 <= i < |r|
      ensures r[i] == if i < k then sorted[i] else if i == k then x else sorted[i - 1]
    {
    }
    forall i, j | 0 <= i < j < |r|
      ensures r[i].executionOrder <= r[j].executionOrder
    {
      if j < k || i > k {
      } else if i == k {
        assert r[j] == sorted[j - 1];
      } else if j == k {
        assert sorted[i].executionOrder <= sorted[k - 1].executionOrder;
      } else {
        assert r[i] == sorted[i] && r[j] == sorted[j - 1];
      }
    }
  }

  /** The insertion step adds exactly `x` to the list's contents. */
  lemma InsertAddsOne(sorted: seq<WarehouseModule>, k: int, x: WarehouseModule)
    requires 0 <= k <= |sorted|
    ensures multiset(sorted[..k] + [x] + sorted[k..]) == multiset(sorted) + multiset{x}
  {
    assert sorted == sorted[..k] + sorted[k..];
  }

  /** In a sorted list the largest execution order is the last module's. */
  lemma {:induction false} SortedMaxIsLast(modules: seq<WarehouseModule>)
    requires |modules| > 0 && SortedByOrder(modules)
    ensures ModuleConfig.MaxOrder(modules) == modules[|modules| - 1].executionOrder
  {
    var m := ModuleConfig.MaxOrder(modules);
    var k :| 0 <= k < |modules| && modules[k].executionOrder == m;
    assert modules[k].executionOrder <= modules[|modules| - 1].executionOrder;
  }

  /** `isModuleEnabled`: some module with that code is enabled. */
  function IsModuleEnabled(modules: seq<WarehouseModule>, code: string): (r: bool)
    ensures r <==> exists k :: 0 <= k < |modules| && modules[k].moduleCode == code && modules[k].isEnabled
  {
    if modules == [] then false
    else if modules[0].moduleCode == code && modules[0].isEnabled then true
    else
      var r := IsModuleEnabled(modules[1..], code);
      assert forall k :: 1 <= k < |modules| ==> modules[k] == modules[1..][k - 1];
      r
  }

  /** `getModuleForDefinition`: the first module with the definition's code. */
  function GetModuleForDefinition(modules: seq<WarehouseModule>, definition: ModuleDefinition): (r: Option<WarehouseModule>)
    ensures r.Some? ==> r.value in modules && r.value.moduleCode == definition.code
    ensures r.None? <==> forall k :: 0 <= k < |modules| ==> modules[k].moduleCode != definition.code
  {
    FindByCode(modules, definition.code)
  }

  /**
   * The module the table shows for a definition is enabled exactly when the
   * definition counts as enabled, provided codes are unique per warehouse.
   */
  lemma EnabledAgreesWithLookup(modules: seq<WarehouseModule>, definition: ModuleDefinition)
    requires UniqueCodes(modules)
    ensures IsModuleEnabled(modules, definition.code) <==>
      (GetModuleForDefinition(modules, definition).Some? && GetModuleForDefinition(modules, definition).value.isEnabled)
  {
    if IsModuleEnabled(modules, definition.code) {
      var k :| 0 <= k < |modules| && modules[k].moduleCode == definition.code && modules[k].isEnabled;
      FindByCodeUnique(modules, definition.code, k);
    }
  }

  /** `getStatusText` */
  function StatusText(m: WarehouseModule): (r: string)
    ensures r == "Disabled" <==> !m.isEnabled
    ensures r == "Required" <==> m.isEnabled && m.isRequired
    ensures r == "Active" <==> m.isEnabled && !m.isRequired
  {
    if !m.isEnabled then "Disabled"
    else if m.isRequired then "Required"
    else "Active"
  }

  /** `getStatusColor` */
  function StatusColor(m: WarehouseModule): (r: string)
    ensures r == "warn" <==> !m.isEnabled
    ensures r == "primary" <==> m.isEnabled && m.isRequired
    ensures r == "accent" <==> m.isEnabled && !m.isRequired
  {
    if !m.isEnabled then "warn"
    else if m.isRequired then "primary"
    else "accent"
  }

  /** The status colour is determined by the status text, one colour per text. */
  lemma StatusColourMatchesText(m: WarehouseModule, n: WarehouseModule)
    ensures StatusText(m) == StatusText(n) <==> StatusColor(m) == StatusColor(n)
    ensures StatusText(m) == "Disabled" <==> StatusColor(m) == "warn"
    ensures StatusText(m) == "Required" <==> StatusColor(m) == "primary"
    ensures StatusText(m) == "Active" <==> StatusColor(m) == "accent"
  {
  }

  /**
   * The request `disableModule` sends, if any: none without a selected
   * warehouse, for a required module or without confirmation; otherwise one
   * naming the selected warehouse and the module's type.
   */
  function DisableRequestFor(selected: Option<Warehouse>, m: WarehouseModule, confirmed: bool): (r: Option<DisableModuleRequest>)
    ensures r.Some? <==> selected.Some? && !m.isRequired && confirmed
    ensures r.Some? ==> r.value.warehouseId == selected.value.id && r.value.moduleType == m.moduleType
  {
    if selected.None? || m.isRequired || !confirmed then None
    else Some(DisableModuleRequest(selected.value.id, m.moduleType))
  }

  /** A module the table shows as "Required" can never be disabled from the page. */
  lemma RequiredNeverDisabled(selected: Option<Warehouse>, m: WarehouseModule, confirmed: bool)
    requires StatusText(m) == "Required"
    ensures DisableRequestFor(selected, m, confirmed).None?
  {
  }

  /**
   * What a module (re)load leaves on screen, from the list and notices before
   * it: on success a sorted permutation of the response and no new notice; on
   * failure the previous list and a "Failed to load modules" notice.
   */
  predicate ModulesLoaded(response: Outcome<seq<WarehouseModule>>, before: seq<WarehouseModule>,
                          noticesBefore: seq<Notice>, after: seq<WarehouseModule>, noticesAfter: seq<Notice>) {
    && (response.Ok? ==>
          multiset(after) == multiset(response.value) && SortedByOrder(after) && noticesAfter == noticesBefore)
    && (response.Failed? ==>
          after == before && noticesAfter == noticesBefore + [Notice("Failed to load modules", ErrorNotice)])
  }

  /** The page component's state and its request log. */
  class ModuleListComponent {
    var warehouses: seq<Warehouse>
    var selectedWarehouse: Option<Warehouse>
    var moduleDefinitions: seq<ModuleDefinition>
    var warehouseModules: seq<WarehouseModule>
    var loading: bool
    var loadingDefinitions: bool
    var notices: seq<Notice>
    /** Every call this component made to the module service. */
    ghost var requests: seq<ServiceRequest>
    /** The data of every configuration dialog the page opened. */
    ghost var dialogs: seq<ModuleConfig.ModuleConfigData>

    /** The displayed modules are always in execution order. */
    ghost predicate Valid()
      reads this
    {
      SortedByOrder(warehouseModules)
    }

    constructor ()
      ensures Valid()
      ensures warehouses == [] && selectedWarehouse.None? && moduleDefinitions == [] && warehouseModules == []
      ensures !loading && !loadingDefinitions && notices == [] && requests == [] && dialogs == []
    {
      warehouses := [];
      selectedWarehouse := None;
      moduleDefinitions := [];
      warehouseModules := [];
      loading := false;
      loadingDefinitions := false;
      notices := [];
      requests := [];
      dialogs := [];
    }

    /**
     * `loadWarehouseModules`: nothing without a selected warehouse; otherwise
     * fetch its modules and store them sorted by execution order.
     */
    method LoadWarehouseModules(response: Outcome<seq<WarehouseModule>>)
      requires Valid()
      modifies this
      ensures Valid()
      ensures warehouses == old(warehouses) && selectedWarehouse == old(selectedWarehouse)
      ensures moduleDefinitions == old(moduleDefinitions) && loadingDefinitions == old(loadingDefinitions)
      ensures dialogs == old(dialogs)
      ensures selectedWarehouse.None? ==>
        && warehouseModules == old(warehouseModules) && loading == old(loading)
        && notices == old(notices) && requests == old(requests)
      ensures selectedWarehouse.Some? ==>
        && !loading
        && requests == old(requests) + [GetWarehouseModules(selectedWarehouse.value.id)]
        && ModulesLoaded(response, old(warehouseModules), old(notices), warehouseModules, notices)
    {
      if selectedWarehouse.None? {
        return;
      }
      loading := true;
      requests := requests + [GetWarehouseModules(selectedWarehouse.value.id)];
      match response {
        case Ok(modules) =>
          warehouseModules := SortByExecutionOrder(modules);
          loading := false;
        case Failed(_) =>
          notices := notices + [Notice("Failed to load modules", ErrorNotice)];
          loading := false;
      }
    }

    /**
     * The warehouses response handler: store the list; a non-empty list
     * selects its first warehouse and loads that warehouse's modules, an empty
     * one leaves the selection as it was.
     */
    method WarehousesArrived(response: Outcome<seq<Warehouse>>, modulesResponse: Outcome<seq<WarehouseModule>>)
      requires Valid()
      modifies this
      ensures Valid() && !loading
      ensures moduleDefinitions == old(moduleDefinitions) && loadingDefinitions == old(loadingDefinitions)
      ensures dialogs == old(dialogs)
      ensures response.Ok? && |response.value| > 0 ==>
        && warehouses == response.value
        && selectedWarehouse == Some(response.value[0])
        && requests == old(requests) + [GetWarehouseModules(response.value[0].id)]
        && ModulesLoaded(modulesResponse, old(warehouseModules), old(notices), warehouseModules, notices)
      ensures response.Ok? && |response.value| == 0 ==>
        && warehouses == []
        && selectedWarehouse == old(selectedWarehouse)
        && warehouseModules == old(warehouseModules)
        && requests == old(requests)
        && notices == old(notices)
      ensures response.Failed? ==>
        && warehouses == old(warehouses)
        && selectedWarehouse == old(selectedWarehouse)
        && warehouseModules == old(warehouseModules)
        && requests == old(requests)
        && notices == old(notices) + [Notice("Failed to load warehouses", ErrorNotice)]
    {
      match response {
        case Ok(list) =>
          warehouses := list;
          if |list| > 0 {
            selectedWarehouse := Some(list[0]);
            LoadWarehouseModules(modulesResponse);
          }
          loading := false;
        case Failed(_) =>
          notices := notices + [Notice("Failed to load warehouses", ErrorNotice)];
          loading := false;
      }
    }

    /** `loadWarehouses`: request the warehouses and handle the response. */
    method LoadWarehouses(response: Outcome<seq<Warehouse>>, modulesResponse: Outcome<seq<WarehouseModule>>)
      requires Valid()
      modifies this
      ensures Valid() && !loading
      ensures moduleDefinitions == old(moduleDefinitions) && loadingDefinitions == old(loadingDefinitions)
      ensures dialogs == old(dialogs)
      ensures response.Ok? && |response.value| > 0 ==>
        && warehouses == response.value
        && selectedWarehouse == Some(response.value[0])
        && requests == old(requests) + [GetWarehouses, GetWarehouseModules(response.value[0].id)]
        && ModulesLoaded(modulesResponse, old(warehouseModules), old(notices), warehouseModules, notices)
      ensures response.Ok? && |response.value| == 0 ==>
        && warehouses == []
        && selectedWarehouse == old(selectedWarehouse)
        && warehouseModules == old(warehouseModules)
        && requests == old(requests) + [GetWarehouses]
        && notices == old(notices)
      ensures response.Failed? ==>
        && warehouses == old(warehouses)
        && selectedWarehouse == old(selectedWarehouse)
        && warehouseModules == old(warehouseModules)
        && requests == old(requests) + [GetWarehouses]
        && notices == old(notices) + [Notice("Failed to load warehouses", ErrorNotice)]
    {
      loading := true;
      requests := requests + [GetWarehouses];
      WarehousesArrived(response, modulesResponse);
    }

    /** The definitions response handler: a failure is only logged to the console. */
    method DefinitionsArrived(response: Outcome<seq<ModuleDefinition>>)
      modifies this
      ensures !loadingDefinitions
      ensures moduleDefinitions == if response.Ok? then response.value else old(moduleDefinitions)
      ensures requests == old(requests)
      ensures warehouses == old(warehouses) && selectedWarehouse == old(selectedWarehouse)
      ensures warehouseModules == old(warehouseModules) && loading == old(loading)
      ensures notices == old(notices) && dialogs == old(dialogs)
    {
      if response.Ok? {
        moduleDefinitions := response.value;
      }
      loadingDefinitions := false;
    }

    /** `loadModuleDefinitions`: request the catalog and handle the response. */
    method LoadModuleDefinitions(response: Outcome<seq<ModuleDefinition>>)
      modifies this
      ensures !loadingDefinitions
      ensures moduleDefinitions == if response.Ok? then response.value else old(moduleDefinitions)
      ensures requests == old(requests) + [GetModuleDefinitions]
      ensures warehouses == old(warehouses) && selectedWarehouse == old(selectedWarehouse)
      ensures warehouseModules == old(warehouseModules) && loading == old(loading)
      ensures notices == old(notices) && dialogs == old(dialogs)
    {
      loadingDefinitions := true;
      requests := requests + [GetModuleDefinitions];
      DefinitionsArrived(response);
    }

    /**
     * `ngOnInit`: the warehouses and the catalog are requested back to back;
     * the first warehouse's modules are requested only once the warehouses
     * have arrived.
     */
    method NgOnInit(warehousesResponse: Outcome<seq<Warehouse>>,
                    modulesResponse: Outcome<seq<WarehouseModule>>,
                    definitionsResponse: Outcome<seq<ModuleDefinition>>)
      requires Valid()
      modifies this
      ensures Valid() && !loading && !loadingDefinitions
      ensures dialogs == old(dialogs)
      ensures moduleDefinitions == if definitionsResponse.Ok? then definitionsResponse.value else old(moduleDefinitions)
      ensures warehousesResponse.Ok? && |warehousesResponse.value| > 0 ==>
        && warehouses == warehousesResponse.value
        && selectedWarehouse == Some(warehousesResponse.value[0])
        && requests == old(requests)
             + [GetWarehouses, GetModuleDefinitions, GetWarehouseModules(warehousesResponse.value[0].id)]
        && ModulesLoaded(modulesResponse, old(warehouseModules), old(notices), warehouseModules, notices)
      ensures warehousesResponse.Ok? && |warehousesResponse.value| == 0 ==>
        && warehouses == []
        && selectedWarehouse == old(selectedWarehouse)
        && warehouseModules == old(warehouseModules)
        && requests == old(requests) + [GetWarehouses, GetModuleDefinitions]
        && notices == old(notices)
      ensures warehousesResponse.Failed? ==>
        && warehouses == old(warehouses)
        && selectedWarehouse == old(selectedWarehouse)
        && warehouseModules == old(warehouseModules)
        && requests == old(requests) + [GetWarehouses, GetModuleDefinitions]
        && notices == old(notices) + [Notice("Failed to load warehouses", ErrorNotice)]
    {
      loading := true;
      requests := requests + [GetWarehouses];
      loadingDefinitions := true;
      requests := requests + [GetModuleDefinitions];
      WarehousesArrived(warehousesResponse, modulesResponse);
      DefinitionsArrived(definitionsResponse);
    }

    /** The user picks a warehouse in the selector (`onWarehouseChange`). */
    method OnWarehouseChange(warehouse: Warehouse, response: Outcome<seq<WarehouseModule>>)
      requires Valid() && warehouse in warehouses
      modifies this
      ensures Valid() && !loading
      ensures selectedWarehouse == Some(warehouse)
      ensures requests == old(requests) + [GetWarehouseModules(warehouse.id)]
      ensures ModulesLoaded(response, old(warehouseModules), old(notices), warehouseModules, notices)
      ensures warehouses == old(warehouses) && moduleDefinitions == old(moduleDefinitions)
      ensures loadingDefinitions == old(loadingDefinitions) && dialogs == old(dialogs)
    {
      selectedWarehouse := Some(warehouse);
      LoadWarehouseModules(response);
    }

    /**
     * `openEnableDialog`: without a selected warehouse nothing happens;
     * otherwise the dialog receives the warehouse, the definition and the
     * current modules, and the list reloads only when the dialog closes with a
     * truthy result.
     */
    method OpenEnableDialog(definition: ModuleDefinition, dialogResult: bool,
                            reloadResponse: Outcome<seq<WarehouseModule>>)
      requires Valid()
      modifies this
      ensures Valid()
      ensures warehouses == old(warehouses) && selectedWarehouse == old(selectedWarehouse)
      ensures moduleDefinitions == old(moduleDefinitions) && loadingDefinitions == old(loadingDefinitions)
      ensures selectedWarehouse.None? ==>
        && dialogs == old(dialogs) && requests == old(requests) && warehouseModules == old(warehouseModules)
        && notices == old(notices) && loading == old(loading)
      ensures selectedWarehouse.Some? ==>
        dialogs == old(dialogs) + [ModuleConfig.ModuleConfigData(selectedWarehouse.value, definition, old(warehouseModules))]
      ensures selectedWarehouse.Some? && !dialogResult ==>
        && requests == old(requests) && warehouseModules == old(warehouseModules)
        && notices == old(notices) && loading == old(loading)
      ensures selectedWarehouse.Some? && dialogResult ==>
        && !loading
        && requests == old(requests) + [GetWarehouseModules(selectedWarehouse.value.id)]
        && ModulesLoaded(reloadResponse, old(warehouseModules), old(notices), warehouseModules, notices)
    {
      if selectedWarehouse.None? {
        return;
      }
      dialogs := dialogs + [ModuleConfig.ModuleConfigData(selectedWarehouse.value, definition, warehouseModules)];
      if dialogResult {
        LoadWarehouseModules(reloadResponse);
      }
    }

    /**
     * `disableModule`: nothing without a selected warehouse; a required module
     * gets a warning and no request; otherwise, once confirmed, the disable
     * request is sent, and success reloads the list while failure shows the
     * server's error and does not reload.
     */
    method DisableModule(m: WarehouseModule, confirmed: bool, response: Outcome<()>,
                         reloadResponse: Outcome<seq<WarehouseModule>>)
      requires Valid()
      modifies this
      ensures Valid()
      ensures warehouses == old(warehouses) && selectedWarehouse == old(selectedWarehouse)
      ensures moduleDefinitions == old(moduleDefinitions) && loadingDefinitions == old(loadingDefinitions)
      ensures dialogs == old(dialogs)
      ensures DisableRequestFor(selectedWarehouse, m, confirmed).None? ==>
        && requests == old(requests) && warehouseModules == old(warehouseModules) && loading == old(loading)
      ensures selectedWarehouse.None? ==> notices == old(notices)
      ensures selectedWarehouse.Some? && m.isRequired ==>
        notices == old(notices) + [Notice("Cannot disable required module", WarningNotice)]
      ensures selectedWarehouse.Some? && !m.isRequired && !confirmed ==> notices == old(notices)
      ensures DisableRequestFor(selectedWarehouse, m, confirmed).Some? && response.Ok? ==>
        && !loading
        && requests == old(requests)
             + [PostDisable(DisableRequestFor(selectedWarehouse, m, confirmed).value), GetWarehouseModules(selectedWarehouse.value.id)]
        && ModulesLoaded(reloadResponse, old(warehouseModules),
                         old(notices) + [Notice("Module disabled successfully", SuccessNotice)], warehouseModules, notices)
      ensures DisableRequestFor(selectedWarehouse, m, confirmed).Some? && response.Failed? ==>
        && !loading
        && warehouseModules == old(warehouseModules)
        && requests == old(requests) + [PostDisable(DisableRequestFor(selectedWarehouse, m, confirmed).value)]
        && notices == old(notices) + [Notice(FailureText(response.serverError, "Failed to disable module"), ErrorNotice)]
    {
      if selectedWarehouse.None? {
        return;
      }
      if m.isRequired {
        notices := notices + [Notice("Cannot disable required module", WarningNotice)];
        return;
      }
      var request := DisableRequestFor(selectedWarehouse, m, confirmed);
      if request.Some? {
        loading := true;
        requests := requests + [PostDisable(request.value)];
        match response {
          case Ok(_) =>
            notices := notices + [Notice("Module disabled successfully", SuccessNotice)];
            LoadWarehouseModules(reloadResponse);
          case Failed(serverError) =>
            notices := notices + [Notice(FailureText(serverError, "Failed to disable module"), ErrorNotice)];
            loading := false;
        }
      }
    }
  }
}

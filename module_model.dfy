/**
 * The module-administration data model (ModuleDefinition, WarehouseModule,
 * Warehouse and the two request bodies), the calls the module service makes,
 * and the lookups both Angular components share.
 */
module ModuleModel {
  import opened Wrappers

  /** A catalog entry describing a capability a warehouse can enable. */
  datatype ModuleDefinition = ModuleDefinition(
    id: string,
    moduleType: string,
    code: string,
    name: string,
    isRequired: bool,
    isSystemEnabled: bool,
    defaultExecutionOrder: int,
    defaultSettings: Option<string>)

  /** The association "this module is configured for this warehouse". */
  datatype WarehouseModule = WarehouseModule(
    id: string,
    warehouseId: string,
    moduleType: string,
    moduleCode: string,
    moduleName: string,
    isEnabled: bool,
    isRequired: bool,
    executionOrder: int,
    canSkip: bool,
    skipConditions: Option<string>,
    customSettings: Option<string>)

  datatype Warehouse = Warehouse(id: string, code: string, name: string)

  datatype EnableModuleRequest = EnableModuleRequest(
    warehouseId: string,
    moduleDefinitionId: string,
    executionOrder: int,
    isRequired: bool,
    canSkip: bool,
    skipConditions: Option<string>,
    customSettings: Option<string>)

  datatype DisableModuleRequest = DisableModuleRequest(warehouseId: string, moduleType: string)

  /** One HTTP call of the module service, as recorded in a component's request log. */
  datatype ServiceRequest =
    | GetWarehouses
    | GetModuleDefinitions
    | GetWarehouseModules(warehouseId: string)
    | PostEnable(enable: EnableModuleRequest)
    | PostDisable(disable: DisableModuleRequest)

  /**
   * How a service call ended: its response body, or an error whose body may
   * carry the server's `error` text.
   */
  datatype Outcome<T> = Ok(value: T) | Failed(serverError: Option<string>)

  datatype NoticeKind = SuccessNotice | ErrorNotice | WarningNotice

  /** A snackbar message shown to the user. */
  datatype Notice = Notice(text: string, kind: NoticeKind)

  /** `error.error?.error || fallback`: the server's text when it gave a non-empty one. */
  function FailureText(serverError: Option<string>, fallback: string): (r: string)
    ensures TruthyText(serverError) ==> r == serverError.value
    ensures !TruthyText(serverError) ==> r == fallback
  {
    TextOr(serverError, fallback)
  }

  /**
   * `modules.find(m => m.moduleCode === code)`: the first module with that code,
   * or nothing when no module has it.
   */
  function FindByCode(modules: seq<WarehouseModule>, code: string): (r: Option<WarehouseModule>)
    ensures r.None? <==> forall k :: 0 <= k < |modules| ==> modules[k].moduleCode != code
    ensures r.Some? ==> exists k :: 0 <= k < |modules| && modules[k] == r.value && FirstWithCode(modules, code, k)
  {
    if modules == [] then None
    else if modules[0].moduleCode == code then
      assert FirstWithCode(modules, code, 0);
      Some(modules[0])
    else
      var r := FindByCode(modules[1..], code);
      if r.Some? then
        var k :| 0 <= k < |modules[1..]| && modules[1..][k] == r.value && FirstWithCode(modules[1..], code, k);
        assert FirstWithCode(modules, code, k + 1);
        r
      else r
  }

  /** Index `k` holds the first module whose code is `code`. */
  predicate FirstWithCode(modules: seq<WarehouseModule>, code: string, k: int) {
    0 <= k < |modules| && modules[k].moduleCode == code
    && forall j :: 0 <= j < k ==> modules[j].moduleCode != code
  }

  /** The warehouse invariant: at most one module per module code. */
  predicate UniqueCodes(modules: seq<WarehouseModule>) {
    forall i, j :: 0 <= i < j < |modules| ==> modules[i].moduleCode != modules[j].moduleCode
  }

  /** With unique codes, the module `find` returns is the only one with that code. */
  lemma FindByCodeUnique(modules: seq<WarehouseModule>, code: string, k: int)
    requires UniqueCodes(modules)
    requires 0 <= k < |modules| && modules[k].moduleCode == code
    ensures FindByCode(modules, code) == Some(modules[k])
  {
    var r := FindByCode(modules, code);
    var i :| 0 <= i < |modules| && modules[i] == r.value && FirstWithCode(modules, code, i);
    assert i == k;
  }
}

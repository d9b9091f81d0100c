/**
 * The "enable / configure module" dialog of the admin console
 * (ModuleConfigComponent): it proposes a form from the module definition and
 * the warehouse's current modules, validates it, and submits one enable
 * request.
 */
module ModuleConfig {
  import opened Wrappers
  import opened Strings
  import opened ModuleModel

  /** What the module list passes to the dialog. */
  datatype ModuleConfigData = ModuleConfigData(
    warehouse: Warehouse,
    moduleDefinition: ModuleDefinition,
    warehouseModules: seq<WarehouseModule>)

  /**
   * The value of the dialog's reactive form. `executionOrder` is `None` when
   * the number field has been cleared.
   */
  datatype ConfigForm = ConfigForm(
    executionOrder: Option<int>,
    isRequired: bool,
    canSkip: bool,
    skipConditions: string,
    customSettings: string)

  /** The gap left between consecutive execution orders of new modules. */
  const OrderSpacing: int := 10

  /** `Math.max(...modules.map(m => m.executionOrder))` on a non-empty list. */
  function MaxOrder(modules: seq<WarehouseModule>): (m: int)
    requires |modules| > 0
    ensures forall k :: 0 <= k < |modules| ==> modules[k].executionOrder <= m
    ensures exists k :: 0 <= k < |modules| && modules[k].executionOrder == m
  {
    if |modules| == 1 then modules[0].executionOrder
    else
      var rest := MaxOrder(modules[1..]);
      if modules[0].executionOrder >= rest then modules[0].executionOrder else rest
  }

  /** `maxOrder`: the largest execution order, or 0 for a warehouse without modules. */
  function MaxOrderOrZero(modules: seq<WarehouseModule>): int {
    if |modules| > 0 then MaxOrder(modules) else 0
  }

  /**
   * `existingModule?.executionOrder || (maxOrder + 10)`: the existing module's
   * order unless it is absent or 0 (which JavaScript treats as false).
   */
  function NextOrder(existing: Option<WarehouseModule>, modules: seq<WarehouseModule>): (r: int)
    ensures existing.Some? && existing.value.executionOrder != 0 ==> r == existing.value.executionOrder
    ensures existing.None? || existing.value.executionOrder == 0 ==>
      forall k :: 0 <= k < |modules| ==> modules[k].executionOrder < r
  {
    if existing.Some? && existing.value.executionOrder != 0 then existing.value.executionOrder
    else MaxOrderOrZero(modules) + OrderSpacing
  }

  /** The warehouse module already configured for the dialog's definition, if any. */
  function ExistingModule(data: ModuleConfigData): Option<WarehouseModule> {
    FindByCode(data.warehouseModules, data.moduleDefinition.code)
  }

  /** The form `ngOnInit` builds. */
  function DefaultForm(data: ModuleConfigData): ConfigForm {
    var existing := ExistingModule(data);
    var definition := data.moduleDefinition;
    ConfigForm(
      Some(NextOrder(existing, data.warehouseModules)),
      (existing.Some? && existing.value.isRequired) || definition.isRequired,
      if existing.Some? then existing.value.canSkip else !definition.isRequired,
      if existing.Some? then TextOr(existing.value.skipConditions, "") else "",
      TextOr(if existing.Some? then existing.value.customSettings else None,
             TextOr(definition.defaultSettings, "")))
  }

  /** `Validators.required` and `Validators.min(1)` on the execution order. */
  predicate FormValid(form: ConfigForm) {
    form.executionOrder.Some? && form.executionOrder.value >= 1
  }

  /** The form an enable request was built from: absent strings read back as "". */
  function RequestForm(request: EnableModuleRequest): ConfigForm {
    ConfigForm(Some(request.executionOrder), request.isRequired, request.canSkip,
               TextOr(request.skipConditions, ""), TextOr(request.customSettings, ""))
  }

  /** The body `onSubmit` posts to the enable endpoint. */
  function BuildRequest(data: ModuleConfigData, form: ConfigForm): (r: EnableModuleRequest)
    requires FormValid(form)
    ensures r.warehouseId == data.warehouse.id && r.moduleDefinitionId == data.moduleDefinition.id
    ensures r.executionOrder >= 1
    ensures r.skipConditions.None? <==> form.skipConditions == ""
    ensures r.customSettings.None? <==> form.customSettings == ""
    ensures RequestForm(r) == form
  {
    EmptyToAbsentRoundTrip(form.skipConditions);
    EmptyToAbsentRoundTrip(form.customSettings);
    EnableModuleRequest(
      data.warehouse.id,
      data.moduleDefinition.id,
      form.executionOrder.value,
      form.isRequired,
      form.canSkip,
      EmptyToAbsent(form.skipConditions),
      EmptyToAbsent(form.customSettings))
  }

  /** The dialog title: "Configure <name>" in edit mode, "Enable <name>" otherwise. */
  function TitleFor(isEditMode: bool, name: string): (r: string)
    ensures StartsWith(r, "Configure ") <==> isEditMode
    ensures StartsWith(r, "Enable ") <==> !isEditMode
    ensures |name| <= |r| && r[|r| - |name|..] == name
    ensures |r| == (if isEditMode then |"Configure "| else |"Enable "|) + |name|
  {
    var r := if isEditMode then "Configure " + name else "Enable " + name;
    assert r[0] == if isEditMode then 'C' else 'E';
    r
  }

  /** The success snackbar text. */
  function SavedText(isEditMode: bool): (r: string)
    ensures r == "Module updated successfully" <==> isEditMode
    ensures r == "Module enabled successfully" <==> !isEditMode
  {
    if isEditMode then "Module updated successfully" else "Module enabled successfully"
  }

  /**
   * `isJsonValid`: a blank settings text is valid without consulting the
   * parser; any other text is valid exactly when `parses` accepts it.
   */
  function IsJsonValid(text: string, parses: string -> bool): (r: bool)
    ensures IsBlank(text) ==> r
    ensures !IsBlank(text) ==> r == parses(text)
  {
    if text == "" || IsBlank(text) then true else parses(text)
  }

  /** Edit mode holds exactly when some warehouse module carries the definition's code. */
  lemma EditModeIff(data: ModuleConfigData)
    ensures ExistingModule(data).Some? <==>
      exists k :: 0 <= k < |data.warehouseModules| && data.warehouseModules[k].moduleCode == data.moduleDefinition.code
  {
  }

  /** A warehouse without modules is offered execution order 10. */
  lemma FirstModuleOrder(data: ModuleConfigData)
    requires data.warehouseModules == []
    ensures DefaultForm(data).executionOrder == Some(10)
  {
  }

  /**
   * A module that is not configured yet is offered the largest existing order
   * plus 10, which places it after every module the warehouse has.
   */
  lemma NewModuleOrderedLast(data: ModuleConfigData)
    requires ExistingModule(data).None?
    ensures DefaultForm(data).executionOrder == Some(MaxOrderOrZero(data.warehouseModules) + 10)
    ensures forall k :: 0 <= k < |data.warehouseModules| ==>
      data.warehouseModules[k].executionOrder < DefaultForm(data).executionOrder.value
  {
  }

  /**
   * A configured module keeps its own execution order, except that an order of
   * 0 falls back to the largest order plus 10.
   */
  lemma ExistingModuleOrder(data: ModuleConfigData)
    requires ExistingModule(data).Some?
    ensures var m := ExistingModule(data).value;
      DefaultForm(data).executionOrder ==
        if m.executionOrder != 0 then Some(m.executionOrder)
        else Some(MaxOrderOrZero(data.warehouseModules) + 10)
  {
  }

  /**
   * Default flags: `isRequired` is the OR of the existing value and the
   * definition's; `canSkip` is the existing value, else the negation of the
   * definition's `isRequired`.
   */
  lemma DefaultFlags(data: ModuleConfigData)
    ensures var form, existing := DefaultForm(data), ExistingModule(data);
      && (existing.Some? ==> form.isRequired == (existing.value.isRequired || data.moduleDefinition.isRequired))
      && (existing.None? ==> form.isRequired == data.moduleDefinition.isRequired)
      && (existing.Some? ==> form.canSkip == existing.value.canSkip)
      && (existing.None? ==> form.canSkip == !data.moduleDefinition.isRequired)
  {
  }

  /**
   * Default texts: skip conditions come from the existing module or are empty;
   * custom settings come from the existing module, else from the definition's
   * default settings, else are empty.
   */
  lemma DefaultTexts(data: ModuleConfigData)
    ensures var form, existing := DefaultForm(data), ExistingModule(data);
      && (existing.Some? && TruthyText(existing.value.skipConditions) ==> form.skipConditions == existing.value.skipConditions.value)
      && (existing.None? || !TruthyText(existing.value.skipConditions) ==> form.skipConditions == "")
      && (existing.Some? && TruthyText(existing.value.customSettings) ==> form.customSettings == existing.value.customSettings.value)
      && ((existing.None? || !TruthyText(existing.value.customSettings)) && TruthyText(data.moduleDefinition.defaultSettings)
          ==> form.customSettings == data.moduleDefinition.defaultSettings.value)
      && ((existing.None? || !TruthyText(existing.value.customSettings)) && !TruthyText(data.moduleDefinition.defaultSettings)
          ==> form.customSettings == "")
  {
  }

  /**
   * When no warehouse module has a negative order, the proposed form passes
   * validation as it stands.
   */
  lemma {:induction false} DefaultFormValid(data: ModuleConfigData)
    requires forall k :: 0 <= k < |data.warehouseModules| ==> data.warehouseModules[k].executionOrder >= 0
    ensures FormValid(DefaultForm(data))
  {
    var existing := ExistingModule(data);
    if existing.Some? {
      var k :| 0 <= k < |data.warehouseModules| && data.warehouseModules[k] == existing.value
        && FirstWithCode(data.warehouseModules, data.moduleDefinition.code, k);
      assert existing.value.executionOrder >= 0;
    }
    if |data.warehouseModules| > 0 {
      var k :| 0 <= k < |data.warehouseModules| && data.warehouseModules[k].executionOrder == MaxOrder(data.warehouseModules);
      assert MaxOrderOrZero(data.warehouseModules) >= 0;
    }
  }

  /** The validation boundary: 0 is rejected, 1 accepted, a cleared field rejected. */
  lemma OrderBoundary(form: ConfigForm)
    ensures form.executionOrder == Some(0) ==> !FormValid(form)
    ensures form.executionOrder == Some(1) ==> FormValid(form)
    ensures form.executionOrder.None? ==> !FormValid(form)
  {
  }

  /**
   * Submitting an edit form unchanged re-sends the existing module's order,
   * skip flag and non-empty skip condition (an absent or empty one is sent as
   * absent); its custom settings go out when non-empty, the definition's
   * default settings otherwise.
   */
  lemma ResubmitExisting(data: ModuleConfigData)
    requires ExistingModule(data).Some? && ExistingModule(data).value.executionOrder >= 1
    ensures FormValid(DefaultForm(data))
    ensures var m, r := ExistingModule(data).value, BuildRequest(data, DefaultForm(data));
      && r.executionOrder == m.executionOrder
      && r.canSkip == m.canSkip
      && r.isRequired == (m.isRequired || data.moduleDefinition.isRequired)
      && r.skipConditions == (if TruthyText(m.skipConditions) then m.skipConditions else None)
      && (TruthyText(m.customSettings) ==> r.customSettings == m.customSettings)
      && (!TruthyText(m.customSettings) ==>
            r.customSettings == if TruthyText(data.moduleDefinition.defaultSettings)
                                then data.moduleDefinition.defaultSettings else None)
  {
  }

  /** The dialog component: its form state, busy flag, close result and request log. */
  class ModuleConfigComponent {
    const data: ModuleConfigData
    var configForm: ConfigForm
    var loading: bool
    var isEditMode: bool
    var existingModule: Option<WarehouseModule>
    /** The value the dialog was closed with, if it has been closed. */
    var closedWith: Option<bool>
    var notices: seq<Notice>
    /** Every call this component made to the module service. */
    ghost var requests: seq<ServiceRequest>
    /** `ngOnInit` has run (Angular runs it before any user event). */
    ghost var initialized: bool

    constructor (data: ModuleConfigData)
      ensures this.data == data
      ensures !loading && !isEditMode && existingModule.None? && closedWith.None?
      ensures notices == [] && requests == [] && !initialized
    {
      this.data := data;
      configForm := ConfigForm(None, false, false, "", "");
      loading := false;
      isEditMode := false;
      existingModule := None;
      closedWith := None;
      notices := [];
      requests := [];
      initialized := false;
    }

    /** `ngOnInit`: detect edit mode and build the proposed form. */
    method NgOnInit()
      modifies this
      ensures initialized
      ensures existingModule == ExistingModule(data) && isEditMode == existingModule.Some?
      ensures configForm == DefaultForm(data)
      ensures loading == old(loading) && closedWith == old(closedWith)
      ensures notices == old(notices) && requests == old(requests)
    {
      existingModule := ExistingModule(data);
      isEditMode := existingModule.Some?;
      configForm := DefaultForm(data);
      initialized := true;
    }

    /** The `title` getter. */
    function Title(): (r: string)
      reads this
      ensures r == TitleFor(isEditMode, data.moduleDefinition.name)
      ensures StartsWith(r, "Configure ") <==> isEditMode
    {
      TitleFor(isEditMode, data.moduleDefinition.name)
    }

    /** The user edits the form's fields. */
    method EditForm(form: ConfigForm)
      modifies this
      ensures configForm == form
      ensures loading == old(loading) && isEditMode == old(isEditMode) && existingModule == old(existingModule)
      ensures closedWith == old(closedWith) && notices == old(notices)
      ensures requests == old(requests) && initialized == old(initialized)
    {
      configForm := form;
    }

    /**
     * `onSubmit`: an invalid form sends nothing. A valid one sends the enable
     * request; success closes the dialog with `true`, failure shows the error
     * and leaves the dialog open with `loading` reset.
     */
    method OnSubmit(response: Outcome<()>)
      requires initialized
      modifies this
      ensures configForm == old(configForm) && isEditMode == old(isEditMode)
      ensures existingModule == old(existingModule) && initialized == old(initialized)
      ensures !FormValid(configForm) ==>
        loading == old(loading) && closedWith == old(closedWith) && notices == old(notices) && requests == old(requests)
      ensures FormValid(configForm) ==> requests == old(requests) + [PostEnable(BuildRequest(data, configForm))]
      ensures FormValid(configForm) && response.Ok? ==>
        && loading
        && closedWith == Some(true)
        && notices == old(notices) + [Notice(SavedText(isEditMode), SuccessNotice)]
      ensures FormValid(configForm) && response.Failed? ==>
        && !loading
        && closedWith == old(closedWith)
        && notices == old(notices) + [Notice(FailureText(response.serverError, "Failed to save module configuration"), ErrorNotice)]
    {
      if !FormValid(configForm) {
        return;
      }
      loading := true;
      var request := BuildRequest(data, configForm);
      requests := requests + [PostEnable(request)];
      match response {
        case Ok(_) =>
          notices := notices + [Notice(SavedText(isEditMode), SuccessNotice)];
          closedWith := Some(true);
        case Failed(serverError) =>
          notices := notices + [Notice(FailureText(serverError, "Failed to save module configuration"), ErrorNotice)];
          loading := false;
      }
    }

    /** `onCancel`: close with `false`, sending nothing. */
    method OnCancel()
      modifies this
      ensures closedWith == Some(false)
      ensures configForm == old(configForm) && loading == old(loading) && isEditMode == old(isEditMode)
      ensures existingModule == old(existingModule) && notices == old(notices)
      ensures requests == old(requests) && initialized == old(initialized)
    {
      closedWith := Some(false);
    }
  }
}

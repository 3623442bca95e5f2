/**
 * The route subscriber of the SuiteCRM external entities: when the case type
 * is configured with an add form mode other than `default`, the add-form
 * route is switched to that form mode and requires the permission to use it.
 *
 * A route is an object whose defaults and requirements `alterRoutes` updates
 * in place. Reading the configuration and looking up the route in the
 * collection happen outside this model: the configured add form mode and the
 * `entity.suitecrm_case.add_form` route (or `null`) are the parameters.
 */
module SuiteCrmRouteSubscriber {
  import opened Common
  import FormModePermissions

  const CaseType := "suitecrm_case"

  class Route {
    var defaults: map<string, string>
    var requirements: map<string, string>

    constructor (defaults: map<string, string>, requirements: map<string, string>)
      ensures this.defaults == defaults && this.requirements == requirements
    {
      this.defaults := defaults;
      this.requirements := requirements;
    }
  }

  /** A configured add form mode takes effect when it is set, not empty, and not `default`. */
  predicate CustomMode(addFormMode: Option<string>) {
    !FalsyOpt(addFormMode) && addFormMode.value != "default"
  }

  /**
   * `alterRoutes`: with a custom add form mode and an add-form route, the
   * route's `_entity_form` becomes `suitecrm_case.<mode>` and its
   * `_permission` the permission to use that form mode; otherwise nothing
   * changes.
   */
  method AlterRoutes(addFormMode: Option<string>, addForm: Route?)
    modifies addForm
    ensures addForm != null && CustomMode(addFormMode) ==>
              && addForm.defaults == old(addForm.defaults)["_entity_form" := CaseType + "." + addFormMode.value]
              && addForm.requirements
                 == old(addForm.requirements)["_permission" := FormModePermissions.PermissionName(CaseType, addFormMode.value)]
    ensures addForm != null && !CustomMode(addFormMode) ==>
              addForm.defaults == old(addForm.defaults) && addForm.requirements == old(addForm.requirements)
  {
    if FalsyOpt(addFormMode) || addFormMode.value == "default" {
      return;
    }
    if addForm != null {
      addForm.defaults := addForm.defaults["_entity_form" := CaseType + "." + addFormMode.value];
      var permission := "use suitecrm_case." + addFormMode.value + " form mode";
      assert permission == FormModePermissions.PermissionName(CaseType, addFormMode.value);
      addForm.requirements := addForm.requirements["_permission" := permission];
    }
  }

  /**
   * The permission the altered route requires is one the permission provider
   * defines, whenever the configured mode is a form mode the repository
   * returns for the case type.
   */
  lemma RoutePermissionDefined(formModesOf: FormModePermissions.FormModeLookup, mode: string)
    requires formModesOf(CaseType).Some? && UniqueKeys(formModesOf(CaseType).value)
    requires Get(formModesOf(CaseType).value, mode).Some?
    ensures Get(FormModePermissions.AllPermissions(FormModePermissions.EntityTypes, formModesOf),
                FormModePermissions.PermissionName(CaseType, mode)).Some?
  {
    FormModePermissions.SuiteCrmPermissions(formModesOf, mode);
  }
}

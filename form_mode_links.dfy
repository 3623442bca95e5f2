/**
 * The form-mode links formatter of the SuiteCRM external entities: for a user
 * who may update the entity it renders an "Edit" link to the default edit
 * form and one "Edit: <mode>" link per selected form mode the user may use and
 * that has an edit route; its settings summary describes those settings.
 *
 * The display repository's `getFormModes` for the entity's type is the
 * parameter `formModes` (`None` when it throws); the current user's
 * permissions and the route provider are the predicates `hasPermission` and
 * `routeExists`. The entity carries what the formatter asks of it: its type
 * and id, update access, whether it has an `edit-form` link template, and its
 * cache tags. Translation is not modelled.
 */
module FormModeLinksFormatter {
  import opened Common
  import FormModePermissions

  /** The formatter settings: `show_default`, the `form_modes` checkboxes (id to value) and `link_class`. */
  datatype Settings = Settings(showDefault: bool, formModes: OMap<string, string>, linkClass: string)

  /** `defaultSettings`. */
  const DefaultSettings := Settings(true, [], "button")

  /** The entity the field belongs to, as far as the formatter asks about it. */
  datatype Entity = Entity(entityType: string, id: string, canUpdate: bool, hasEditForm: bool, cacheTags: seq<string>)

  datatype LinkTitle = EditTitle | ModeTitle(modeLabel: string)
  datatype LinkUrl = EditFormUrl | RouteUrl(route: string, entityType: string, entityId: string)
  datatype Link = Link(title: LinkTitle, url: LinkUrl, classes: seq<string>)

  /** The single `item_list` element the formatter renders at index 0. */
  datatype ItemList = ItemList(links: OMap<string, Link>, classes: seq<string>, cacheContexts: seq<string>, cacheTags: seq<string>)

  /** The lines of the settings summary. */
  datatype SummaryLine = DefaultLinkLine | ModesLine(modes: string) | ClassLine(cls: string)

  const DefaultKey := "default"

  /** The route of the edit form of a form mode. */
  function RouteName(entityType: string, mode: string): string {
    "entity." + entityType + ".edit_form." + mode
  }

  /** `array_filter($form_modes)`: the selected values, in settings order. */
  function SelectedModes(formModes: OMap<string, string>): (r: seq<string>)
    ensures forall j :: 0 <= j < |r| ==> !Falsy(r[j])
    ensures forall j :: 0 <= j < |formModes| && !Falsy(formModes[j].1) ==> formModes[j].1 in r
  {
    if formModes == [] then []
    else
      var n := |formModes| - 1;
      var prev := SelectedModes(formModes[..n]);
      assert forall j :: 0 <= j < n ==> formModes[j] == formModes[..n][j];
      prev + if Falsy(formModes[n].1) then [] else [formModes[n].1]
  }

  /** The default edit link, when it is shown. */
  function DefaultLinks(settings: Settings, e: Entity): OMap<string, Link> {
    if settings.showDefault && e.hasEditForm then [(DefaultKey, Link(EditTitle, EditFormUrl, [settings.linkClass, "button--primary"]))]
    else []
  }

  /** A selected form mode gets a link when it exists, the user may use it, and its edit route exists. */
  predicate Allowed(mode: string, e: Entity, modes: OMap<string, string>, hasPermission: string -> bool,
                    routeExists: string -> bool) {
    Get(modes, mode).Some? && hasPermission(FormModePermissions.PermissionName(e.entityType, mode))
    && routeExists(RouteName(e.entityType, mode))
  }

  /** The link of an allowed form mode. */
  function ModeLink(mode: string, e: Entity, modes: OMap<string, string>, linkClass: string): Link
    requires Get(modes, mode).Some?
  {
    Link(ModeTitle(Get(modes, mode).value), RouteUrl(RouteName(e.entityType, mode), e.entityType, e.id), [linkClass])
  }

  /** The loop over the selected form modes. */
  function AddModeLinks(links: OMap<string, Link>, selected: seq<string>, e: Entity, modes: OMap<string, string>,
                        hasPermission: string -> bool, routeExists: string -> bool, linkClass: string): OMap<string, Link>
  {
    if selected == [] then links
    else
      var n := |selected| - 1;
      var prev := AddModeLinks(links, selected[..n], e, modes, hasPermission, routeExists, linkClass);
      var m := selected[n];
      if Allowed(m, e, modes, hasPermission, routeExists) then Put(prev, m, ModeLink(m, e, modes, linkClass)) else prev
  }

  /** `$links`. */
  function LinksOf(settings: Settings, e: Entity, formModes: Option<OMap<string, string>>,
                   hasPermission: string -> bool, routeExists: string -> bool): OMap<string, Link>
  {
    var selected := SelectedModes(settings.formModes);
    var defaults := DefaultLinks(settings, e);
    if selected == [] || formModes.None? then defaults
    else AddModeLinks(defaults, selected, e, formModes.value, hasPermission, routeExists, settings.linkClass)
  }

  /** What `viewElements` returns: nothing, or the item list at index 0. */
  function ViewOf(settings: Settings, e: Entity, formModes: Option<OMap<string, string>>,
                  hasPermission: string -> bool, routeExists: string -> bool): Option<ItemList>
  {
    if !e.canUpdate then None
    else
      var links := LinksOf(settings, e, formModes, hasPermission, routeExists);
      if links == [] then None else Some(ItemList(links, ["form-mode-links"], ["user.permissions"], e.cacheTags))
  }

  // ---------------------------------------------------------------------------
  // viewElements
  // ---------------------------------------------------------------------------

  /** The loop over the selected form modes, skipping a mode at the first check it fails. */
  method CollectModeLinks(links: OMap<string, Link>, selected: seq<string>, e: Entity, modes: OMap<string, string>,
                          hasPermission: string -> bool, routeExists: string -> bool, linkClass: string)
    returns (r: OMap<string, Link>)
    ensures r == AddModeLinks(links, selected, e, modes, hasPermission, routeExists, linkClass)
  {
    r := links;
    var i := 0;
    while i < |selected|
      invariant 0 <= i <= |selected|
      invariant r == AddModeLinks(links, selected[..i], e, modes, hasPermission, routeExists, linkClass)
    {
      assert selected[..i + 1][..i] == selected[..i];
      assert selected[..i + 1][i] == selected[i];
      var m := selected[i];
      i := i + 1;
      var info := Get(modes, m);
      if info.None? {
        continue;
      }
      var permission := "use " + e.entityType + "." + m + " form mode";
      assert permission == FormModePermissions.PermissionName(e.entityType, m);
      if !hasPermission(permission) {
        continue;
      }
      var route := "entity." + e.entityType + ".edit_form." + m;
      if routeExists(route) {
        r := Put(r, m, Link(ModeTitle(info.value), RouteUrl(route, e.entityType, e.id), [linkClass]));
      }
    }
    assert selected[..i] == selected;
  }

  /** `viewElements`. */
  method ViewElements(settings: Settings, e: Entity, formModes: Option<OMap<string, string>>,
                      hasPermission: string -> bool, routeExists: string -> bool) returns (elements: Option<ItemList>)
    ensures elements == ViewOf(settings, e, formModes, hasPermission, routeExists)
  {
    if !e.canUpdate {
      return None;
    }
    var links: OMap<string, Link> := [];
    if settings.showDefault && e.hasEditForm {
      links := Put(links, DefaultKey, Link(EditTitle, EditFormUrl, [settings.linkClass, "button--primary"]));
    }
    var selected := SelectedModes(settings.formModes);
    if selected != [] {
      if formModes.Some? {
        links := CollectModeLinks(links, selected, e, formModes.value, hasPermission, routeExists, settings.linkClass);
      }
    }
    elements := None;
    if links != [] {
      elements := Some(ItemList(links, ["form-mode-links"], ["user.permissions"], e.cacheTags));
    }
  }

  // ---------------------------------------------------------------------------
  // Properties of viewElements
  // ---------------------------------------------------------------------------

  /** After the loop, an allowed selected mode has its link and every other key is as before. */
  lemma {:induction false} AddModeLinksGet(links: OMap<string, Link>, selected: seq<string>, e: Entity,
                                           modes: OMap<string, string>, hasPermission: string -> bool,
                                           routeExists: string -> bool, linkClass: string, q: string)
    ensures Get(AddModeLinks(links, selected, e, modes, hasPermission, routeExists, linkClass), q)
            == if q in selected && Allowed(q, e, modes, hasPermission, routeExists)
               then Some(ModeLink(q, e, modes, linkClass)) else Get(links, q)
  {
    if selected != [] {
      var n := |selected| - 1;
      AddModeLinksGet(links, selected[..n], e, modes, hasPermission, routeExists, linkClass, q);
      assert selected == selected[..n] + [selected[n]];
    }
  }

  /** Without update access the formatter renders nothing. */
  lemma NoAccessNoElements(settings: Settings, e: Entity, formModes: Option<OMap<string, string>>,
                           hasPermission: string -> bool, routeExists: string -> bool)
    requires !e.canUpdate
    ensures ViewOf(settings, e, formModes, hasPermission, routeExists).None?
  {
  }

  /**
   * The Edit link is there exactly when `show_default` is on and the entity
   * has an edit form, with the link class and `button--primary` (unless a
   * selected form mode is itself named `default`); a form mode other than
   * `default` has a link exactly when the lookup succeeded, it is selected,
   * it exists, the user holds its permission, and its route exists.
   */
  lemma LinksIff(settings: Settings, e: Entity, formModes: Option<OMap<string, string>>,
                 hasPermission: string -> bool, routeExists: string -> bool, m: string)
    ensures var links := LinksOf(settings, e, formModes, hasPermission, routeExists);
            DefaultKey !in SelectedModes(settings.formModes) ==>
              Get(links, DefaultKey)
              == if settings.showDefault && e.hasEditForm
                 then Some(Link(EditTitle, EditFormUrl, [settings.linkClass, "button--primary"])) else None
    ensures var links := LinksOf(settings, e, formModes, hasPermission, routeExists);
            m != DefaultKey ==>
              (Get(links, m).Some?
               <==> formModes.Some? && m in SelectedModes(settings.formModes)
                    && Allowed(m, e, formModes.value, hasPermission, routeExists))
    ensures var links := LinksOf(settings, e, formModes, hasPermission, routeExists);
            m != DefaultKey && Get(links, m).Some? ==> Get(links, m) == Some(ModeLink(m, e, formModes.value, settings.linkClass))
  {
    var selected := SelectedModes(settings.formModes);
    if selected != [] && formModes.Some? {
      var defaults := DefaultLinks(settings, e);
      AddModeLinksGet(defaults, selected, e, formModes.value, hasPermission, routeExists, settings.linkClass, DefaultKey);
      AddModeLinksGet(defaults, selected, e, formModes.value, hasPermission, routeExists, settings.linkClass, m);
    }
  }

  /** No two selected modes are the same. */
  predicate Distinct(s: seq<string>) {
    forall i, j :: 0 <= i < j < |s| ==> s[i] != s[j]
  }

  /** The selected modes that get a link, in settings order. */
  function AllowedModes(selected: seq<string>, e: Entity, modes: OMap<string, string>, hasPermission: string -> bool,
                        routeExists: string -> bool): seq<string>
  {
    if selected == [] then []
    else
      var n := |selected| - 1;
      AllowedModes(selected[..n], e, modes, hasPermission, routeExists)
      + if Allowed(selected[n], e, modes, hasPermission, routeExists) then [selected[n]] else []
  }

  lemma {:induction false} AllowedModesIn(selected: seq<string>, e: Entity, modes: OMap<string, string>,
                                          hasPermission: string -> bool, routeExists: string -> bool, q: string)
    ensures q in AllowedModes(selected, e, modes, hasPermission, routeExists) ==> q in selected
  {
    if selected != [] {
      var n := |selected| - 1;
      AllowedModesIn(selected[..n], e, modes, hasPermission, routeExists, q);
      assert selected == selected[..n] + [selected[n]];
    }
  }

  /** The links of the loop follow the keys before it, then the allowed modes in settings order. */
  lemma {:induction false} AddModeLinksKeys(links: OMap<string, Link>, selected: seq<string>, e: Entity,
                                            modes: OMap<string, string>, hasPermission: string -> bool,
                                            routeExists: string -> bool, linkClass: string)
    requires Distinct(selected)
    requires forall j :: 0 <= j < |selected| ==> selected[j] !in Keys(links)
    ensures Keys(AddModeLinks(links, selected, e, modes, hasPermission, routeExists, linkClass))
            == Keys(links) + AllowedModes(selected, e, modes, hasPermission, routeExists)
  {
    if selected != [] {
      var n := |selected| - 1;
      var m := selected[n];
      AddModeLinksKeys(links, selected[..n], e, modes, hasPermission, routeExists, linkClass);
      if Allowed(m, e, modes, hasPermission, routeExists) {
        var prev := AddModeLinks(links, selected[..n], e, modes, hasPermission, routeExists, linkClass);
        AddModeLinksGet(links, selected[..n], e, modes, hasPermission, routeExists, linkClass, m);
        assert m !in selected[..n];
        GetKey(links, m);
        PutKeys(prev, m, ModeLink(m, e, modes, linkClass));
      }
    }
  }

  /**
   * With distinct selected modes, none named `default`, the links are the
   * Edit link first, when shown, then the allowed modes in settings order.
   */
  lemma LinksOrder(settings: Settings, e: Entity, formModes: Option<OMap<string, string>>,
                   hasPermission: string -> bool, routeExists: string -> bool)
    requires Distinct(SelectedModes(settings.formModes)) && DefaultKey !in SelectedModes(settings.formModes)
    ensures Keys(LinksOf(settings, e, formModes, hasPermission, routeExists))
            == (if settings.showDefault && e.hasEditForm then [DefaultKey] else [])
               + if formModes.None? then []
                 else AllowedModes(SelectedModes(settings.formModes), e, formModes.value, hasPermission, routeExists)
  {
    var selected := SelectedModes(settings.formModes);
    var defaults := DefaultLinks(settings, e);
    if formModes.Some? {
      if selected == [] {
        assert AllowedModes(selected, e, formModes.value, hasPermission, routeExists) == [];
      } else {
        assert Keys(defaults) == if settings.showDefault && e.hasEditForm then [DefaultKey] else [];
        AddModeLinksKeys(defaults, selected, e, formModes.value, hasPermission, routeExists, settings.linkClass);
      }
    }
  }

  /** With update access, the item list is rendered exactly when there is at least one link. */
  lemma ElementsIffLinks(settings: Settings, e: Entity, formModes: Option<OMap<string, string>>,
                         hasPermission: string -> bool, routeExists: string -> bool)
    requires e.canUpdate
    ensures ViewOf(settings, e, formModes, hasPermission, routeExists).Some?
            <==> LinksOf(settings, e, formModes, hasPermission, routeExists) != []
    ensures ViewOf(settings, e, formModes, hasPermission, routeExists).Some? ==>
              ViewOf(settings, e, formModes, hasPermission, routeExists).value
              == ItemList(LinksOf(settings, e, formModes, hasPermission, routeExists), ["form-mode-links"], ["user.permissions"], e.cacheTags)
  {
  }

  // ---------------------------------------------------------------------------
  // settingsSummary
  // ---------------------------------------------------------------------------

  /**
   * `implode($sep, $parts)` with a separator string: the summary joins with
   * ", ", two characters, while `Common.Join` takes the one-character
   * separator that `Common.Split` inverts in the round-trip lemmas.
   */
  function JoinWith(parts: seq<string>, sep: string): string {
    if parts == [] then ""
    else if |parts| == 1 then parts[0]
    else parts[0] + sep + JoinWith(parts[1..], sep)
  }

  /**
   * `settingsSummary`: a line for the default link when it is on, a line
   * listing the selected modes when there are any, and a line for the link
   * class when it is set, in that order.
   */
  method SettingsSummary(settings: Settings) returns (summary: seq<SummaryLine>)
    ensures DefaultLinkLine in summary <==> settings.showDefault
    ensures ModesLine(JoinWith(SelectedModes(settings.formModes), ", ")) in summary <==> SelectedModes(settings.formModes) != []
    ensures ClassLine(settings.linkClass) in summary <==> !Falsy(settings.linkClass)
    ensures forall j :: 0 <= j < |summary| ==>
              (summary[j].ModesLine? ==> summary[j].modes == JoinWith(SelectedModes(settings.formModes), ", "))
              && (summary[j].ClassLine? ==> summary[j].cls == settings.linkClass)
    ensures forall j :: 0 < j < |summary| ==> Rank(summary[j - 1]) < Rank(summary[j])
  {
    summary := [];
    if settings.showDefault {
      summary := [DefaultLinkLine];
    }
    var selected := SelectedModes(settings.formModes);
    if selected != [] {
      summary := summary + [ModesLine(JoinWith(selected, ", "))];
    }
    if !Falsy(settings.linkClass) {
      summary := summary + [ClassLine(settings.linkClass)];
    }
  }

  /** The position of a kind of summary line. */
  function Rank(line: SummaryLine): nat {
    match line
    case DefaultLinkLine => 0
    case ModesLine(_) => 1
    case ClassLine(_) => 2
  }
}

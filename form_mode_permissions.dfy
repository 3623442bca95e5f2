/**
 * The dynamic permissions of the SuiteCRM external entities: for each entity
 * type that has form-mode permissions, a permission to use its default form
 * mode, and one per form mode the display repository knows. The permission
 * string `use <type>.<mode> form mode` is shared with the form-mode links
 * formatter and the route subscriber.
 *
 * The display repository's `getFormModes` is the function parameter
 * `formModesOf`: the form modes of an entity type by id, each with its label,
 * or `None` when it throws. Translation of the titles and descriptions is not
 * modelled: placeholders are substituted into the English text.
 */
module FormModePermissions {
  import opened Common

  /** The entity types that get form-mode permissions. */
  const EntityTypes: seq<string> := ["suitecrm_case"]

  /** The form modes of an entity type, by id, with their labels; `None` when the lookup throws. */
  type FormModeLookup = string -> Option<OMap<string, string>>

  /** A permission's title and description. */
  datatype Permission = Permission(title: string, description: string)

  type Permissions = OMap<string, Permission>

  /** The permission to use form mode `mode` of entity type `entityType`. */
  function PermissionName(entityType: string, mode: string): (p: string)
    ensures |p| == |entityType| + |mode| + 15
    ensures p[..4] == "use " && p[|p| - 10..] == " form mode"
  {
    "use " + entityType + "." + mode + " form mode"
  }

  /** For one entity type, different form modes have different permissions. */
  lemma PermissionNameInjective(entityType: string, m1: string, m2: string)
    requires PermissionName(entityType, m1) == PermissionName(entityType, m2)
    ensures m1 == m2
  {
    var p := PermissionName(entityType, m1);
    var start := |entityType| + 5;
    assert p[start..start + |m1|] == m1;
    assert PermissionName(entityType, m2)[start..start + |m2|] == m2;
  }

  // ---------------------------------------------------------------------------
  // Display names
  // ---------------------------------------------------------------------------

  /** `str_replace('_', ' ', $id)`. */
  function Humanize(id: string): string {
    ReplaceChar(id, '_', ' ')
  }

  /** The word delimiters of PHP's `ucwords`. */
  predicate WordDelimiter(c: char) {
    c == ' ' || c == '\t' || c == '\r' || c == '\n' || c == '\U{C}' || c == '\U{B}'
  }

  function Upper(c: char): char {
    if 'a' <= c <= 'z' then (c as int - 32) as char else c
  }

  /** `ucwords` on the rest of a string, `start` telling whether a word begins at its first character. */
  function UcwordsFrom(s: string, start: bool): (r: string)
    ensures |r| == |s|
  {
    if s == [] then []
    else [if start then Upper(s[0]) else s[0]] + UcwordsFrom(s[1..], WordDelimiter(s[0]))
  }

  /** `ucwords`: the first character and every character after a delimiter upper-cased. */
  function Ucwords(s: string): string {
    UcwordsFrom(s, true)
  }

  /** `ucwords` upper-cases exactly the characters that begin a word and keeps every other one. */
  lemma {:induction false} UcwordsFromChars(s: string, start: bool)
    ensures forall i :: 0 <= i < |s| ==>
              UcwordsFrom(s, start)[i] == if (if i == 0 then start else WordDelimiter(s[i - 1])) then Upper(s[i]) else s[i]
  {
    if s != [] {
      var rest := UcwordsFrom(s[1..], WordDelimiter(s[0]));
      UcwordsFromChars(s[1..], WordDelimiter(s[0]));
      var r := UcwordsFrom(s, start);
      assert r == [if start then Upper(s[0]) else s[0]] + rest;
      forall i | 1 <= i < |s|
        ensures r[i] == if WordDelimiter(s[i - 1]) then Upper(s[i]) else s[i]
      {
        assert r[i] == rest[i - 1] && s[i] == s[1..][i - 1];
        if i > 1 {
          assert s[i - 1] == s[1..][i - 2];
        }
      }
    }
  }

  /**
   * `ucwords("suitecrm case")` is "Suitecrm Case". The string is a parameter
   * pinned to the literal so that the verifier reasons through
   * `UcwordsFromChars` instead of unfolding `UcwordsFrom` on a literal.
   */
  lemma SuiteCrmCaseTitle(s: string)
    requires s == "suitecrm case"
    ensures Ucwords(s) == "Suitecrm Case"
  {
    UcwordsFromChars(s, true);
    var r := UcwordsFrom(s, true);
    var title := "Suitecrm Case";
    assert |r| == |title|;
    forall i | 0 <= i < |r| ensures r[i] == title[i] {
      if i == 0 {
        assert r[0] == Upper(s[0]);
      } else if i == 9 {
        assert s[8] == ' ' && WordDelimiter(s[8]);
        assert r[9] == Upper(s[9]);
      } else {
        assert s[i - 1] != ' ' && !WordDelimiter(s[i - 1]);
        assert r[i] == s[i];
      }
    }
  }

  /**
   * The SuiteCRM case type `t` is shown as "suitecrm case" in text and as
   * "Suitecrm Case" in titles. As above, `t` stands in for the literal
   * `suitecrm_case`, which the verifier would otherwise unfold.
   */
  lemma SuiteCrmCaseName(t: string)
    requires t == "suitecrm_case"
    ensures Humanize(t) == "suitecrm case"
    ensures DefaultPermission(t).title == "Use default form mode for Suitecrm Case"
  {
    var s := Humanize(t);
    var text := "suitecrm case";
    assert |s| == |text|;
    forall i | 0 <= i < |s| ensures s[i] == text[i] {
      assert s[i] == if t[i] == '_' then ' ' else t[i];
    }
    SuiteCrmCaseTitle(s);
  }

  /** The permission for the default form mode. */
  function DefaultPermission(entityType: string): Permission {
    Permission("Use default form mode for " + Ucwords(Humanize(entityType)),
               "Allows using the default form mode when creating/editing " + Humanize(entityType) + " entities.")
  }

  /** The permission for a form mode with label `modeLabel`. */
  function ModePermission(entityType: string, modeLabel: string): Permission {
    Permission("Use " + modeLabel + " form mode for " + Ucwords(Humanize(entityType)),
               "Allows using the " + modeLabel + " form mode when creating/editing " + Humanize(entityType) + " entities.")
  }

  // ---------------------------------------------------------------------------
  // permissions
  // ---------------------------------------------------------------------------

  /** The inner loop: a permission per form mode, a later one replacing an earlier one of the same name. */
  function AddModes(perms: Permissions, entityType: string, modes: OMap<string, string>): Permissions {
    if modes == [] then perms
    else
      var n := |modes| - 1;
      Put(AddModes(perms, entityType, modes[..n]), PermissionName(entityType, modes[n].0),
          ModePermission(entityType, modes[n].1))
  }

  /** One round of the outer loop: the default permission, then the form modes unless the lookup throws. */
  function AddType(perms: Permissions, entityType: string, formModesOf: FormModeLookup): Permissions {
    var withDefault := Put(perms, PermissionName(entityType, "default"), DefaultPermission(entityType));
    var modes := formModesOf(entityType);
    if modes.None? then withDefault else AddModes(withDefault, entityType, modes.value)
  }

  /** The outer loop over the entity types. */
  function AllPermissions(types: seq<string>, formModesOf: FormModeLookup): Permissions {
    if types == [] then []
    else
      var n := |types| - 1;
      AddType(AllPermissions(types[..n], formModesOf), types[n], formModesOf)
  }

  /** The loop over the form modes of one entity type. */
  method AddFormModes(perms: Permissions, entityType: string, modes: OMap<string, string>) returns (r: Permissions)
    ensures r == AddModes(perms, entityType, modes)
  {
    r := perms;
    var i := 0;
    while i < |modes|
      invariant 0 <= i <= |modes|
      invariant r == AddModes(perms, entityType, modes[..i])
    {
      assert modes[..i + 1][..i] == modes[..i];
      var (id, modeLabel) := modes[i];
      r := Put(r, "use " + entityType + "." + id + " form mode", ModePermission(entityType, modeLabel));
      i := i + 1;
    }
    assert modes[..i] == modes;
  }

  /** One round of the outer loop: the default permission, then, unless the lookup throws, the form modes. */
  method AddTypePermissions(perms: Permissions, entityType: string, formModesOf: FormModeLookup) returns (r: Permissions)
    ensures r == AddType(perms, entityType, formModesOf)
  {
    r := Put(perms, PermissionName(entityType, "default"), DefaultPermission(entityType));
    var modes := formModesOf(entityType);
    if modes.Some? {
      r := AddFormModes(r, entityType, modes.value);
    }
  }

  lemma AllPermissionsStep(types: seq<string>, i: nat, formModesOf: FormModeLookup)
    requires i < |types|
    ensures AllPermissions(types[..i + 1], formModesOf) == AddType(AllPermissions(types[..i], formModesOf), types[i], formModesOf)
  {
    assert types[..i + 1][..i] == types[..i];
  }

  /** `permissions`. */
  method BuildPermissions(types: seq<string>, formModesOf: FormModeLookup) returns (perms: Permissions)
    ensures perms == AllPermissions(types, formModesOf)
  {
    perms := [];
    var i := 0;
    while i < |types|
      invariant 0 <= i <= |types|
      invariant perms == AllPermissions(types[..i], formModesOf)
    {
      AllPermissionsStep(types, i, formModesOf);
      perms := AddTypePermissions(perms, types[i], formModesOf);
      i := i + 1;
    }
    assert types[..i] == types;
  }

  // ---------------------------------------------------------------------------
  // Properties
  // ---------------------------------------------------------------------------

  /** The inner loop gives each form mode its permission and leaves every other name alone. */
  lemma {:induction false} AddModesGet(perms: Permissions, entityType: string, modes: OMap<string, string>, q: string)
    requires UniqueKeys(modes)
    ensures forall m :: q == PermissionName(entityType, m) && Get(modes, m).Some? ==>
              Get(AddModes(perms, entityType, modes), q) == Some(ModePermission(entityType, Get(modes, m).value))
    ensures (forall m :: q == PermissionName(entityType, m) ==> Get(modes, m).None?) ==>
              Get(AddModes(perms, entityType, modes), q) == Get(perms, q)
  {
    if modes != [] {
      var n := |modes| - 1;
      LastKeyFresh(modes);
      AddModesGet(perms, entityType, modes[..n], q);
      forall m ensures Get(modes, m) == if Get(modes[..n], m).Some? then Get(modes[..n], m)
                                        else if m == modes[n].0 then Some(modes[n].1) else None {
        GetSnoc(modes[..n], modes[n].0, modes[n].1, m);
      }
      forall m | q == PermissionName(entityType, m) && q == PermissionName(entityType, modes[n].0)
        ensures m == modes[n].0
      {
        PermissionNameInjective(entityType, m, modes[n].0);
      }
    }
  }

  /**
   * The permissions of the SuiteCRM case type: the default permission is
   * always there, and each form mode the repository returns adds its own; a
   * form mode named `default` replaces the default permission's text.
   */
  lemma SuiteCrmPermissions(formModesOf: FormModeLookup, m: string)
    requires formModesOf("suitecrm_case").Some? ==> UniqueKeys(formModesOf("suitecrm_case").value)
    ensures var perms := AllPermissions(EntityTypes, formModesOf);
            var modes := formModesOf("suitecrm_case");
            && Get(perms, PermissionName("suitecrm_case", "default")).Some?
            && (modes.Some? && Get(modes.value, m).Some? ==>
                  Get(perms, PermissionName("suitecrm_case", m)) == Some(ModePermission("suitecrm_case", Get(modes.value, m).value)))
            && (m != "default" && (modes.None? || Get(modes.value, m).None?) ==>
                  Get(perms, PermissionName("suitecrm_case", m)).None?)
  {
    var t := "suitecrm_case";
    assert EntityTypes[..0] == [];
    var withDefault := Put([], PermissionName(t, "default"), DefaultPermission(t));
    var modes := formModesOf(t);
    if modes.Some? {
      AddModesGet(withDefault, t, modes.value, PermissionName(t, "default"));
      AddModesGet(withDefault, t, modes.value, PermissionName(t, m));
      forall m' | PermissionName(t, m) == PermissionName(t, m') ensures m' == m {
        PermissionNameInjective(t, m, m');
      }
      if m != "default" {
        if PermissionName(t, m) == PermissionName(t, "default") {
          PermissionNameInjective(t, m, "default");
        }
      }
    } else if m != "default" {
      if PermissionName(t, m) == PermissionName(t, "default") {
        PermissionNameInjective(t, m, "default");
      }
    }
  }

  /** When the form-mode lookup throws, only the default permission remains. */
  lemma LookupFailureDefaultOnly(formModesOf: FormModeLookup)
    requires formModesOf("suitecrm_case").None?
    ensures AllPermissions(EntityTypes, formModesOf)
            == [(PermissionName("suitecrm_case", "default"), DefaultPermission("suitecrm_case"))]
  {
    assert EntityTypes[..0] == [];
    PutKeys([], PermissionName("suitecrm_case", "default"), DefaultPermission("suitecrm_case"));
  }
}

/**
 * The feature-toggle endpoints (backend/app/api/v1/feature_toggles.py).
 * Every endpoint but the feature check is gated on the role name being
 * `client_admin` or `super_admin`; each acts on the caller's own
 * organization.  A `ValueError` from the CRUD layer is not caught by the
 * handlers, so it becomes a server error (500).
 */
module FeatureTogglesApi {
  import opened Common
  import opened UserModel
  import opened Deps
  import opened FeatureToggles

  /** `get_organization_feature_toggles`. */
  method GetOrganizationFeatureToggles(s: ToggleStore, caller: User) returns (r: Result<seq<Feature>>)
    requires s.Valid()
    modifies s
    ensures s.Valid()
    ensures r.Fail? <==> !IsAdmin(caller.role)
    ensures r.Fail? ==> r.error == Forbidden && s.rows == old(s.rows)
    ensures r.Ok? ==> r.value == RowsOf(s.rows, caller.organizationId) && |r.value| > 0
  {
    if AdminRoleNameGate(caller).Fail? {
      return Fail(Forbidden);
    }
    var fs := s.OrganizationFeatures(caller.organizationId);
    r := Ok(fs);
  }

  /** `update_feature_toggle_status`. */
  method UpdateFeatureToggleStatus(s: ToggleStore, caller: User, key: string, u: ToggleUpdate) returns (r: Result<Feature>)
    requires s.Valid()
    modifies s
    ensures s.Valid()
    ensures !IsAdmin(caller.role) ==> r == Fail(Forbidden) && s.rows == old(s.rows)
    ensures IsAdmin(caller.role) && FirstIndex(old(s.rows), caller.organizationId, key).None?
            ==> r == Fail(ServerError) && s.rows == old(s.rows)
    ensures r.Ok? ==> IsAdmin(caller.role)
                      && var j := FirstIndex(old(s.rows), caller.organizationId, key).value;
                         r.value == ApplyToggleUpdate(old(s.rows)[j], u) && s.rows == old(s.rows)[j := r.value]
    ensures IsAdmin(caller.role) && FirstIndex(old(s.rows), caller.organizationId, key).Some? ==> r.Ok?
  {
    if AdminRoleNameGate(caller).Fail? {
      return Fail(Forbidden);
    }
    var f := s.UpdateFeatureToggle(caller.organizationId, key, u);
    if f.None? {
      return Fail(ServerError);
    }
    r := Ok(f.value);
  }

  /**
   * The same endpoint as the code stands: `update_feature_toggle` stamps
   * `updated_at` with a `datetime` the module never imports, so once the
   * row is found the call fails before its commit and the change is
   * discarded.
   */
  method UpdateFeatureToggleStatusAsWritten(s: ToggleStore, caller: User, key: string, u: ToggleUpdate)
    returns (r: Result<Feature>)
    requires s.Valid()
    modifies s
    ensures s.Valid() && s.rows == old(s.rows)
    ensures r.Fail?
    ensures !IsAdmin(caller.role) ==> r == Fail(Forbidden)
    ensures IsAdmin(caller.role) ==> r == Fail(ServerError)
  {
    if AdminRoleNameGate(caller).Fail? {
      return Fail(Forbidden);
    }
    r := Fail(ServerError);
  }

  /** With the import in place, an admin's update of an existing feature succeeds; as written it never does. */
  method UpdateFeatureToggleDiscrepancy(s: ToggleStore, caller: User, key: string, u: ToggleUpdate)
    returns (intended: Result<Feature>, asWritten: Result<Feature>)
    requires s.Valid() && IsAdmin(caller.role) && FirstIndex(s.rows, caller.organizationId, key).Some?
    modifies s
    ensures intended.Ok? && asWritten == Fail(ServerError)
  {
    asWritten := UpdateFeatureToggleStatusAsWritten(s, caller, key, u);
    intended := UpdateFeatureToggleStatus(s, caller, key, u);
  }

  /** `get_feature_config`: 403, then 500 for a missing feature. */
  function GetFeatureConfig(rows: seq<Feature>, caller: User, key: string): (r: Result<(bool, Option<Config>)>)
    ensures r.Fail? <==> !IsAdmin(caller.role) || FirstIndex(rows, caller.organizationId, key).None?
    ensures !IsAdmin(caller.role) ==> r == Fail(Forbidden)
    ensures IsAdmin(caller.role) && r.Fail? ==> r == Fail(ServerError)
    ensures r.Ok? ==> var j := FirstIndex(rows, caller.organizationId, key).value;
                      r.value == (rows[j].isEnabled, rows[j].configuration)
  {
    if AdminRoleNameGate(caller).Fail? then Fail(Forbidden)
    else match FirstIndex(rows, caller.organizationId, key)
      case None => Fail(ServerError)
      case Some(j) => Ok((rows[j].isEnabled, rows[j].configuration))
  }

  /** `update_feature_config`: the flag is never changed through this endpoint. */
  method UpdateFeatureConfig(s: ToggleStore, caller: User, key: string, config: Option<Config>) returns (r: Result<Feature>)
    requires s.Valid()
    modifies s
    ensures s.Valid()
    ensures r.Fail? <==> !IsAdmin(caller.role) || FirstIndex(old(s.rows), caller.organizationId, key).None?
    ensures r.Fail? ==> s.rows == old(s.rows)
    ensures r.Ok? ==> var j := FirstIndex(old(s.rows), caller.organizationId, key).value;
                      r.value.isEnabled == old(s.rows)[j].isEnabled
                      && (config.Some? ==> r.value.configuration == config)
                      && (config.None? ==> r.value == old(s.rows)[j])
                      && s.rows == old(s.rows)[j := r.value]
  {
    if AdminRoleNameGate(caller).Fail? {
      return Fail(Forbidden);
    }
    var f := s.UpdateFeatureConfiguration(caller.organizationId, key, config);
    if f.None? {
      return Fail(ServerError);
    }
    r := Ok(f.value);
  }

  /** `get_available_features_catalog`. */
  function AvailableFeatures(caller: User): (r: Result<seq<CatalogEntry>>)
    ensures r.Fail? <==> !IsAdmin(caller.role)
    ensures r.Ok? ==> |r.value| == 10 && r.value == Catalog
  {
    if AdminRoleNameGate(caller).Fail? then Fail(Forbidden) else Ok(Catalog)
  }

  /** The feature lists `get_configuration_templates` shows. */
  const CatalogConservative: seq<TemplateEntry> := [
    TemplateEntry("resource_library", true, Some(map["allow_uploads" := JBool(false), "moderation" := JText("pre_approval")])),
    TemplateEntry("grant_statistics", true, Some(map["anonymized_only" := JBool(true)])),
    TemplateEntry("grant_calendar", true, Some(map["public_events_only" := JBool(true)])),
    TemplateEntry("forums", false, None),
    TemplateEntry("professional_marketplace", false, None),
    TemplateEntry("networking", false, None),
    TemplateEntry("gamification", false, None)
  ]

  function CatalogTemplate(name: string): (r: Option<seq<TemplateEntry>>)
    ensures r.Some? <==> TemplateNamed(name).Some?
  {
    if name == "conservative" then Some(CatalogConservative)
    else if name == "standard" then Some(Standard)
    else if name == "progressive" then Some(Progressive)
    else if name == "innovation" then Some(Innovation)
    else None
  }

  /**
   * The catalog shown to administrators agrees with what applying the
   * template does: the conservative listing only leaves out `qa_platform`
   * and `success_stories` (which the template switches off), and every
   * other listing is the template itself.
   */
  lemma CatalogAgreesWithTemplates(name: string)
    requires TemplateNamed(name).Some?
    ensures name != "conservative" ==> CatalogTemplate(name) == TemplateNamed(name)
    ensures name == "conservative" ==>
              CatalogTemplate(name).value == Conservative[..3] + Conservative[5..]
              && !Conservative[3].enabled && Conservative[3].key == "qa_platform"
              && !Conservative[4].enabled && Conservative[4].key == "success_stories"
  {
    if name == "conservative" {
      var tail := Conservative[5..];
      assert tail == [Conservative[5], Conservative[6], Conservative[7], Conservative[8]];
      assert Conservative[..3] == [Conservative[0], Conservative[1], Conservative[2]];
    }
  }

  /** `apply_configuration_template`: 403, then 500 for an unknown template, then the template. */
  method ApplyConfigurationTemplate(s: ToggleStore, caller: User, name: string) returns (r: Result<string>)
    requires s.Valid()
    modifies s
    ensures s.Valid()
    ensures !IsAdmin(caller.role) ==> r == Fail(Forbidden) && s.rows == old(s.rows)
    ensures IsAdmin(caller.role) && TemplateNamed(name).None? ==> r == Fail(ServerError) && s.rows == old(s.rows)
    ensures r.Ok? <==> IsAdmin(caller.role) && TemplateNamed(name).Some?
    ensures r.Ok? ==> s.rows == ApplyEntries(old(s.rows), caller.organizationId, TemplateNamed(name).value)
  {
    if AdminRoleNameGate(caller).Fail? {
      return Fail(Forbidden);
    }
    var ok := s.ResetToTemplate(caller.organizationId, name);
    if !ok {
      return Fail(ServerError);
    }
    r := Ok("Applied " + name + " template successfully");
  }

  /** A template reaches only the caller's own organization. */
  lemma TemplateStaysInOrganization(rows: seq<Feature>, org: Option<int>, t: seq<TemplateEntry>, j: nat)
    requires j < |rows| && rows[j].organizationId != org
    ensures |ApplyEntries(rows, org, t)| == |rows| && ApplyEntries(rows, org, t)[j] == rows[j]
  {
    ApplyEntriesEffect(rows, org, t);
  }

  /** The answer of the feature check. */
  datatype FeatureCheck = FeatureCheck(enabled: bool, configuration: Option<Config>)

  /** The search loop of `check_feature_enabled`: the first row with the key, else disabled with `{}`. */
  function CheckFeature(fs: seq<Feature>, key: string): (r: FeatureCheck)
    ensures (forall i :: 0 <= i < |fs| ==> fs[i].key != key) ==> r == FeatureCheck(false, Some(map[]))
    ensures forall j :: 0 <= j < |fs| && fs[j].key == key && (forall i :: 0 <= i < j ==> fs[i].key != key)
                        ==> r == FeatureCheck(fs[j].isEnabled, fs[j].configuration)
  {
    if fs == [] then FeatureCheck(false, Some(map[]))
    else if fs[0].key == key then FeatureCheck(fs[0].isEnabled, fs[0].configuration)
    else
      var rest := CheckFeature(fs[1..], key);
      assert forall j :: 1 <= j < |fs| ==> fs[j] == fs[1..][j - 1];
      rest
  }

  /**
   * `check_feature_enabled`: no role gate; it reads (and, for an
   * organization with no rows, first seeds) the caller's organization.
   */
  method CheckFeatureEnabled(s: ToggleStore, caller: User, key: string) returns (r: FeatureCheck)
    requires s.Valid()
    modifies s
    ensures s.Valid()
    ensures r == CheckFeature(RowsOf(s.rows, caller.organizationId), key)
    ensures old(RowsOf(s.rows, caller.organizationId)) != [] ==> s.rows == old(s.rows)
    ensures old(RowsOf(s.rows, caller.organizationId)) == []
            ==> r == CheckFeature(SeedRows(caller.organizationId, DefaultSeeds, old(s.nextId)), key)
  {
    var fs := s.OrganizationFeatures(caller.organizationId);
    r := CheckFeature(fs, key);
  }

  /**
   * For a fresh organization the check answers from the defaults: the three
   * tier-1 features are on, a tier-3 feature is off with its default
   * configuration, and `networking_events`, never seeded, is off with `{}`.
   */
  lemma FreshOrganizationCheck(org: Option<int>, firstId: nat)
    ensures CheckFeature(SeedRows(org, DefaultSeeds, firstId), "grant_calendar").enabled
    ensures CheckFeature(SeedRows(org, DefaultSeeds, firstId), "forums")
            == FeatureCheck(false, Some(DefaultSeeds[5].config))
    ensures CheckFeature(SeedRows(org, DefaultSeeds, firstId), "networking_events") == FeatureCheck(false, Some(map[]))
  {
    FreshCalendarOn(org, firstId);
    FreshForumsSeeded(org, firstId);
    FreshNetworkingOff(org, firstId);
  }

  lemma FreshCalendarOn(org: Option<int>, firstId: nat)
    ensures CheckFeature(SeedRows(org, DefaultSeeds, firstId), "grant_calendar").enabled
  {
    var keys := DefaultSeedKeys();
    assert keys[2] == "grant_calendar" && keys[0] != "grant_calendar" && keys[1] != "grant_calendar";
    CheckSeeded(org, DefaultSeeds, firstId, "grant_calendar", 2);
    DefaultsEnableTierOne();
  }

  lemma FreshForumsSeeded(org: Option<int>, firstId: nat)
    ensures CheckFeature(SeedRows(org, DefaultSeeds, firstId), "forums") == FeatureCheck(false, Some(DefaultSeeds[5].config))
  {
    var keys := DefaultSeedKeys();
    assert keys[5] == "forums" && keys[0] != "forums" && keys[1] != "forums" && keys[2] != "forums"
           && keys[3] != "forums" && keys[4] != "forums";
    CheckSeeded(org, DefaultSeeds, firstId, "forums", 5);
    DefaultsEnableTierOne();
  }

  lemma FreshNetworkingOff(org: Option<int>, firstId: nat)
    ensures CheckFeature(SeedRows(org, DefaultSeeds, firstId), "networking_events") == FeatureCheck(false, Some(map[]))
  {
    var rows := SeedRows(org, DefaultSeeds, firstId);
    NetworkingEventsIsNeverSeeded();
    assert forall i :: 0 <= i < |rows| ==> rows[i].key == SeedKeys(DefaultSeeds)[i];
  }

  /** The keys of the default seeds, in seeding order. */
  lemma DefaultSeedKeys() returns (keys: seq<string>)
    ensures keys == SeedKeys(DefaultSeeds)
    ensures keys == ["resource_library", "grant_statistics", "grant_calendar", "qa_platform", "success_stories",
                     "forums", "professional_marketplace", "networking", "gamification"]
  {
    keys := SeedKeys(DefaultSeeds);
  }

  /** Checking a key on freshly seeded rows reads the first seed with that key. */
  lemma CheckSeeded(org: Option<int>, seeds: seq<Seed>, firstId: nat, key: string, j: nat)
    requires j < |seeds| && SeedKeys(seeds)[j] == key
    requires forall i :: 0 <= i < j ==> SeedKeys(seeds)[i] != key
    ensures CheckFeature(SeedRows(org, seeds, firstId), key) == FeatureCheck(seeds[j].enabled, Some(seeds[j].config))
  {
    var rows := SeedRows(org, seeds, firstId);
    assert forall i :: 0 <= i < j ==> rows[i].key == SeedKeys(seeds)[i];
  }

  /** One entry of the bulk-update answer. */
  datatype BulkResult = Updated(feature: Feature) | Failed

  /** Row `j` after the bulk update has applied the keys in `done`. */
  function BulkRow(rows: seq<Feature>, org: Option<int>, updates: map<string, ToggleUpdate>, done: set<string>, j: nat)
    : (r: Feature)
    requires j < |rows|
    ensures r.organizationId == rows[j].organizationId && r.key == rows[j].key
  {
    if IsFirst(rows, org, j) && rows[j].key in done && rows[j].key in updates
    then ApplyToggleUpdate(rows[j], updates[rows[j].key]) else rows[j]
  }

  /** The whole table after the bulk update has applied the keys in `done`. */
  predicate BulkApplied(start: seq<Feature>, org: Option<int>, updates: map<string, ToggleUpdate>, done: set<string>,
                        rows: seq<Feature>)
  {
    |rows| == |start| && forall j :: 0 <= j < |start| ==> rows[j] == BulkRow(start, org, updates, done, j)
  }

  /**
   * `bulk_update_features`: one answer per requested key; a key without a
   * row answers `Failed` and the loop goes on with the others.
   */
  method BulkUpdateFeatures(s: ToggleStore, caller: User, updates: map<string, ToggleUpdate>)
    returns (r: Result<map<string, BulkResult>>)
    requires s.Valid()
    modifies s
    ensures s.Valid()
    ensures r.Fail? <==> !IsAdmin(caller.role)
    ensures r.Fail? ==> r.error == Forbidden && s.rows == old(s.rows)
    ensures r.Ok? ==> r.value.Keys == updates.Keys
    ensures r.Ok? ==> forall k :: k in updates ==>
                        (r.value[k].Updated? <==> FirstIndex(old(s.rows), caller.organizationId, k).Some?)
    ensures r.Ok? ==> BulkApplied(old(s.rows), caller.organizationId, updates, updates.Keys, s.rows)
  {
    if AdminRoleNameGate(caller).Fail? {
      return Fail(Forbidden);
    }
    var results := BulkLoop(s, caller.organizationId, updates);
    r := Ok(results);
  }

  /** The loop of `bulk_update_features`, with the organization fixed. */
  method BulkLoop(s: ToggleStore, org: Option<int>, updates: map<string, ToggleUpdate>)
    returns (results: map<string, BulkResult>)
    requires s.Valid()
    modifies s
    ensures s.Valid()
    ensures results.Keys == updates.Keys
    ensures forall k :: k in results ==> (results[k].Updated? <==> FirstIndex(old(s.rows), org, k).Some?)
    ensures BulkApplied(old(s.rows), org, updates, updates.Keys, s.rows)
  {
    ghost var start := s.rows;
    results := map[];
    var remaining := updates.Keys;
    while remaining != {}
      invariant results.Keys + remaining == updates.Keys && results.Keys !! remaining
      invariant ResultsAgree(start, org, results)
      invariant s.Valid()
      invariant BulkApplied(start, org, updates, results.Keys, s.rows)
      decreases |remaining|
    {
      var k :| k in remaining;
      results := BulkTurn(s, start, org, updates, results, k);
      remaining := remaining - {k};
    }
  }

  /** Every answer so far says `updated` exactly for the keys whose row existed when the loop began. */
  ghost predicate ResultsAgree(start: seq<Feature>, org: Option<int>, results: map<string, BulkResult>)
  {
    forall k :: k in results ==> (results[k].Updated? <==> FirstIndex(start, org, k).Some?)
  }

  /** One turn of the bulk loop: update the row of `k`, if there is one. */
  method BulkTurn(s: ToggleStore, ghost start: seq<Feature>, org: Option<int>, updates: map<string, ToggleUpdate>,
                  results: map<string, BulkResult>, k: string)
    returns (next: map<string, BulkResult>)
    requires s.Valid() && k in updates && k !in results
    requires BulkApplied(start, org, updates, results.Keys, s.rows)
    requires ResultsAgree(start, org, results)
    modifies s
    ensures s.Valid()
    ensures next.Keys == results.Keys + {k}
    ensures ResultsAgree(start, org, next)
    ensures BulkApplied(start, org, updates, next.Keys, s.rows)
  {
    ghost var before := s.rows;
    var f := s.UpdateFeatureToggle(org, k, updates[k]);
    BulkStep(start, org, updates, results.Keys, k, before, s.rows);
    var answer := if f.Some? then Updated(f.value) else Failed;
    next := results[k := answer];
    assert next.Keys == results.Keys + {k};
  }

  /** One turn of the bulk loop extends the set of applied keys by `k`. */
  lemma BulkStep(start: seq<Feature>, org: Option<int>, updates: map<string, ToggleUpdate>, done: set<string>,
                 k: string, before: seq<Feature>, after: seq<Feature>)
    requires k in updates && k !in done
    requires BulkApplied(start, org, updates, done, before)
    requires FirstIndex(before, org, k).None? ==> after == before
    requires FirstIndex(before, org, k).Some? ==>
               var j := FirstIndex(before, org, k).value;
               after == before[j := ApplyToggleUpdate(before[j], updates[k])]
    ensures FirstIndex(before, org, k) == FirstIndex(start, org, k)
    ensures BulkApplied(start, org, updates, done + {k}, after)
  {
    assert SameKeys(start, before);
    FirstIndexSameKeys(start, before, org, k, 0);
  }
}

/**
 * Per-organization feature toggles and the compliance templates
 * (backend/app/crud/feature_toggles.py).  The rows have the shape the CRUD
 * code writes (`feature_key`, `tier`, `risk_level`, `is_enabled`,
 * `configuration`); the table is a sequence, so "the first row that
 * matches" keeps its meaning.  Timestamps are left out.
 */
module FeatureToggles {
  import opened Common

  /** The JSON values the seeded and template configurations use. */
  datatype JsonValue = JBool(b: bool) | JText(s: string)

  type Config = map<string, JsonValue>

  /** One `FeatureToggle` row; `configuration` is `None` for SQL NULL. */
  datatype Feature = Feature(
    id: nat,
    organizationId: Option<int>,
    key: string,
    name: string,
    tier: nat,
    riskLevel: string,
    isEnabled: bool,
    configuration: Option<Config>)

  /** One entry of the default feature list of `_create_default_features`. */
  datatype Seed = Seed(key: string, name: string, tier: nat, riskLevel: string, enabled: bool, config: Config)

  const DefaultSeeds: seq<Seed> := [
    Seed("resource_library", "Resource Library", 1, "low", true,
         map["allow_uploads" := JBool(false), "moderation" := JText("pre_approval")]),
    Seed("grant_statistics", "Grant Statistics", 1, "low", true, map["anonymized_only" := JBool(true)]),
    Seed("grant_calendar", "Grant Calendar", 1, "low", true, map["public_events_only" := JBool(true)]),
    Seed("qa_platform", "Q&A Platform", 2, "medium", false, map["moderation" := JText("pre_approval")]),
    Seed("success_stories", "Success Stories", 2, "medium", false, map["council_curated" := JBool(true)]),
    Seed("forums", "Discussion Forums", 3, "high", false,
         map["moderation" := JText("pre_approval"), "categories_limited" := JBool(true)]),
    Seed("professional_marketplace", "Professional Marketplace", 3, "high", false,
         map["verification_required" := JBool(true)]),
    Seed("networking", "User Networking", 3, "high", false, map["events_only" := JBool(true)]),
    Seed("gamification", "Gamification", 3, "medium", false, map["basic_points" := JBool(true)])
  ]

  /** The rows `_create_default_features` adds for an organization, ids counting up from `firstId`. */
  function SeedRows(org: Option<int>, seeds: seq<Seed>, firstId: nat): (rows: seq<Feature>)
    ensures |rows| == |seeds|
    ensures forall i :: 0 <= i < |rows| ==>
              rows[i].organizationId == org && rows[i].id == firstId + i
              && rows[i].key == seeds[i].key && rows[i].tier == seeds[i].tier
              && rows[i].isEnabled == seeds[i].enabled && rows[i].configuration == Some(seeds[i].config)
  {
    seq(|seeds|, i requires 0 <= i < |seeds| =>
      Feature(firstId + i, org, seeds[i].key, seeds[i].name, seeds[i].tier, seeds[i].riskLevel,
              seeds[i].enabled, Some(seeds[i].config)))
  }

  /** The defaults are nine rows, and exactly the three tier-1 features start enabled. */
  lemma DefaultsEnableTierOne()
    ensures |DefaultSeeds| == 9
    ensures forall i :: 0 <= i < 9 ==> (DefaultSeeds[i].enabled <==> DefaultSeeds[i].tier == 1)
    ensures forall i :: 0 <= i < 9 ==> (DefaultSeeds[i].enabled <==> i < 3)
  {
  }

  /** The rows of one organization, in table order. */
  function RowsOf(rows: seq<Feature>, org: Option<int>): (r: seq<Feature>)
    ensures |r| <= |rows|
  {
    if rows == [] then []
    else RowsOf(rows[..|rows| - 1], org) + (if rows[|rows| - 1].organizationId == org then [rows[|rows| - 1]] else [])
  }

  /** The view of one organization holds exactly that organization's rows. */
  lemma {:induction false} RowsOfMembers(rows: seq<Feature>, org: Option<int>)
    ensures forall f :: f in RowsOf(rows, org) <==> f in rows && f.organizationId == org
  {
    if rows != [] {
      var init, x := rows[..|rows| - 1], rows[|rows| - 1];
      RowsOfMembers(init, org);
      assert rows == init + [x];
    }
  }

  /** Appending another organization's rows leaves this organization's view alone, and the reverse. */
  lemma {:induction false} RowsOfAppend(a: seq<Feature>, b: seq<Feature>, org: Option<int>)
    ensures RowsOf(a + b, org) == RowsOf(a, org) + RowsOf(b, org)
    decreases |b|
  {
    if b == [] {
      assert a + b == a;
    } else {
      var init, x := b[..|b| - 1], b[|b| - 1];
      assert (a + b)[..|a + b| - 1] == a + init && (a + b)[|a + b| - 1] == x;
      RowsOfAppend(a, init, org);
      var tail := if x.organizationId == org then [x] else [];
      assert RowsOf(a + b, org) == RowsOf(a + init, org) + tail;
      assert RowsOf(b, org) == RowsOf(init, org) + tail;
      assert (RowsOf(a, org) + RowsOf(init, org)) + tail == RowsOf(a, org) + (RowsOf(init, org) + tail);
    }
  }

  /** Row `j` matches (`org`, `key`). */
  predicate Matches(f: Feature, org: Option<int>, key: string)
  {
    f.organizationId == org && f.key == key
  }

  /** Row `j` is the first of its organization with its key: the row `.first()` returns. */
  predicate IsFirst(rows: seq<Feature>, org: Option<int>, j: int)
  {
    0 <= j < |rows| && rows[j].organizationId == org
    && forall i :: 0 <= i < j ==> !Matches(rows[i], org, rows[j].key)
  }

  /** The index `.first()` returns for (`org`, `key`), searching from `from`. */
  function FirstIndexFrom(rows: seq<Feature>, org: Option<int>, key: string, from: nat): (r: Option<nat>)
    requires from <= |rows|
    ensures r.Some? ==> from <= r.value < |rows| && Matches(rows[r.value], org, key)
                        && forall i :: from <= i < r.value ==> !Matches(rows[i], org, key)
    ensures r.None? ==> forall i :: from <= i < |rows| ==> !Matches(rows[i], org, key)
    decreases |rows| - from
  {
    if from == |rows| then None
    else if Matches(rows[from], org, key) then Some(from)
    else FirstIndexFrom(rows, org, key, from + 1)
  }

  function FirstIndex(rows: seq<Feature>, org: Option<int>, key: string): (r: Option<nat>)
    ensures r.Some? ==> IsFirst(rows, org, r.value) && rows[r.value].key == key
    ensures r.None? ==> forall i :: 0 <= i < |rows| ==> !Matches(rows[i], org, key)
  {
    FirstIndexFrom(rows, org, key, 0)
  }

  /** Two tables with the same organizations and keys row by row. */
  predicate SameKeys(a: seq<Feature>, b: seq<Feature>)
  {
    |a| == |b| && forall i :: 0 <= i < |a| ==> a[i].organizationId == b[i].organizationId && a[i].key == b[i].key
  }

  /** The row a lookup finds depends only on organizations and keys. */
  lemma {:induction false} FirstIndexSameKeys(a: seq<Feature>, b: seq<Feature>, org: Option<int>, key: string, from: nat)
    requires SameKeys(a, b) && from <= |a|
    ensures FirstIndexFrom(a, org, key, from) == FirstIndexFrom(b, org, key, from)
    decreases |a| - from
  {
    if from < |a| {
      FirstIndexSameKeys(a, b, org, key, from + 1);
    }
  }

  /** `FeatureToggleUpdate`: each field `None` when left out of the body. */
  datatype ToggleUpdate = ToggleUpdate(isEnabled: Option<bool>, configuration: Option<Option<Config>>)

  /** The `setattr` loop of `update_feature_toggle`. */
  function ApplyToggleUpdate(f: Feature, u: ToggleUpdate): (r: Feature)
    ensures r.id == f.id && r.organizationId == f.organizationId && r.key == f.key
    ensures r.name == f.name && r.tier == f.tier && r.riskLevel == f.riskLevel
    ensures r.isEnabled == (if u.isEnabled.Some? then u.isEnabled.value else f.isEnabled)
    ensures r.configuration == (if u.configuration.Some? then u.configuration.value else f.configuration)
  {
    f.(isEnabled := if u.isEnabled.Some? then u.isEnabled.value else f.isEnabled,
       configuration := if u.configuration.Some? then u.configuration.value else f.configuration)
  }

  /** An update with neither field changes nothing. */
  lemma EmptyToggleUpdateIsIdentity(f: Feature)
    ensures ApplyToggleUpdate(f, ToggleUpdate(None, None)) == f
  {
  }

  /** One entry of a template: the flag and, when given, the configuration. */
  datatype TemplateEntry = TemplateEntry(key: string, enabled: bool, config: Option<Config>)

  /** `settings.get("config", {})`. */
  function ConfigOrEmpty(c: Option<Config>): (r: Config)
    ensures c.Some? ==> r == c.value
    ensures c.None? ==> r == map[]
  {
    if c.Some? then c.value else map[]
  }

  const Conservative: seq<TemplateEntry> := [
    TemplateEntry("resource_library", true, Some(map["allow_uploads" := JBool(false), "moderation" := JText("pre_approval")])),
    TemplateEntry("grant_statistics", true, Some(map["anonymized_only" := JBool(true)])),
    TemplateEntry("grant_calendar", true, Some(map["public_events_only" := JBool(true)])),
    TemplateEntry("qa_platform", false, None),
    TemplateEntry("success_stories", false, None),
    TemplateEntry("forums", false, None),
    TemplateEntry("professional_marketplace", false, None),
    TemplateEntry("networking", false, None),
    TemplateEntry("gamification", false, None)
  ]

  const Standard: seq<TemplateEntry> := [
    TemplateEntry("resource_library", true, Some(map["allow_uploads" := JBool(true), "moderation" := JText("post_approval")])),
    TemplateEntry("grant_statistics", true, Some(map["anonymized_only" := JBool(false)])),
    TemplateEntry("grant_calendar", true, Some(map["public_events_only" := JBool(false)])),
    TemplateEntry("qa_platform", true, Some(map["moderation" := JText("pre_approval")])),
    TemplateEntry("success_stories", true, Some(map["council_curated" := JBool(true)])),
    TemplateEntry("forums", false, None),
    TemplateEntry("professional_marketplace", false, None),
    TemplateEntry("networking", true, Some(map["events_only" := JBool(true)])),
    TemplateEntry("gamification", true, Some(map["basic_points" := JBool(true)]))
  ]

  const Progressive: seq<TemplateEntry> := [
    TemplateEntry("resource_library", true, Some(map["allow_uploads" := JBool(true), "moderation" := JText("post_approval")])),
    TemplateEntry("grant_statistics", true, Some(map["anonymized_only" := JBool(false)])),
    TemplateEntry("grant_calendar", true, Some(map["public_events_only" := JBool(false)])),
    TemplateEntry("qa_platform", true, Some(map["moderation" := JText("post_approval")])),
    TemplateEntry("success_stories", true, Some(map["council_curated" := JBool(false)])),
    TemplateEntry("forums", true, Some(map["moderation" := JText("post_approval"), "categories_limited" := JBool(true)])),
    TemplateEntry("professional_marketplace", true, Some(map["verification_required" := JBool(true)])),
    TemplateEntry("networking", true, Some(map["events_only" := JBool(false)])),
    TemplateEntry("gamification", true, Some(map["basic_points" := JBool(true), "achievements" := JBool(true)]))
  ]

  const Innovation: seq<TemplateEntry> := [
    TemplateEntry("resource_library", true, Some(map["allow_uploads" := JBool(true), "moderation" := JText("post_approval")])),
    TemplateEntry("grant_statistics", true, Some(map["anonymized_only" := JBool(false)])),
    TemplateEntry("grant_calendar", true, Some(map["public_events_only" := JBool(false)])),
    TemplateEntry("qa_platform", true, Some(map["moderation" := JText("community")])),
    TemplateEntry("success_stories", true, Some(map["council_curated" := JBool(false)])),
    TemplateEntry("forums", true, Some(map["moderation" := JText("community"), "categories_limited" := JBool(false)])),
    TemplateEntry("professional_marketplace", true, Some(map["verification_required" := JBool(true)])),
    TemplateEntry("networking", true, Some(map["events_only" := JBool(false)])),
    TemplateEntry("gamification", true,
                  Some(map["basic_points" := JBool(true), "achievements" := JBool(true), "leaderboards" := JBool(true)]))
  ]

  /** The template table of `reset_to_template`; `None` for an unknown name. */
  function TemplateNamed(name: string): (r: Option<seq<TemplateEntry>>)
    ensures r.Some? <==> name in {"conservative", "standard", "progressive", "innovation"}
  {
    if name == "conservative" then Some(Conservative)
    else if name == "standard" then Some(Standard)
    else if name == "progressive" then Some(Progressive)
    else if name == "innovation" then Some(Innovation)
    else None
  }

  /** The keys a template switches on. */
  function EnabledKeys(t: seq<TemplateEntry>): set<string>
  {
    set i | 0 <= i < |t| && t[i].enabled :: t[i].key
  }

  function TemplateKeys(t: seq<TemplateEntry>): seq<string>
  {
    seq(|t|, i requires 0 <= i < |t| => t[i].key)
  }

  function SeedKeys(s: seq<Seed>): seq<string>
  {
    seq(|s|, i requires 0 <= i < |s| => s[i].key)
  }

  /**
   * Every template lists the nine seeded keys, in the seeding order, so a
   * template reaches every seeded row and no other.
   */
  lemma TemplatesCoverDefaults()
    ensures TemplateKeys(Conservative) == SeedKeys(DefaultSeeds)
    ensures TemplateKeys(Standard) == SeedKeys(DefaultSeeds)
    ensures TemplateKeys(Progressive) == SeedKeys(DefaultSeeds)
    ensures TemplateKeys(Innovation) == SeedKeys(DefaultSeeds)
  {
  }

  /** Each template switches on, position by position, whatever the one before it does. */
  predicate EnablesAtLeast(a: seq<TemplateEntry>, b: seq<TemplateEntry>)
  {
    |a| == |b| && forall i :: 0 <= i < |a| ==> a[i].key == b[i].key && (a[i].enabled ==> b[i].enabled)
  }

  lemma EnablesAtLeastSubset(a: seq<TemplateEntry>, b: seq<TemplateEntry>)
    requires EnablesAtLeast(a, b)
    ensures EnabledKeys(a) <= EnabledKeys(b)
  {
    forall k | k in EnabledKeys(a)
      ensures k in EnabledKeys(b)
    {
      var i :| 0 <= i < |a| && a[i].enabled && a[i].key == k;
      assert b[i].enabled && b[i].key == k;
    }
  }

  /**
   * The templates grow: conservative enables a subset of standard, which
   * enables a subset of progressive; progressive and innovation enable the
   * same features and differ only in configuration.
   */
  lemma TemplateChain()
    ensures EnabledKeys(Conservative) <= EnabledKeys(Standard) <= EnabledKeys(Progressive)
    ensures EnabledKeys(Progressive) == EnabledKeys(Innovation)
    ensures EnablesAtLeast(Progressive, Innovation) && EnablesAtLeast(Innovation, Progressive)
    ensures Progressive[3].config != Innovation[3].config
  {
    ConservativeBelowStandard();
    StandardBelowProgressive();
    ProgressiveMatchesInnovation();
    EnablesAtLeastSubset(Conservative, Standard);
    EnablesAtLeastSubset(Standard, Progressive);
    EnablesAtLeastSubset(Progressive, Innovation);
    EnablesAtLeastSubset(Innovation, Progressive);
    assert Progressive[3].config.value["moderation"] != Innovation[3].config.value["moderation"];
  }

  lemma ConservativeBelowStandard()
    ensures EnablesAtLeast(Conservative, Standard)
  {
    TemplatesCoverDefaults();
    assert forall i :: 0 <= i < 9 ==> Conservative[i].key == TemplateKeys(Conservative)[i];
    assert forall i :: 0 <= i < 9 ==> Standard[i].key == TemplateKeys(Standard)[i];
  }

  lemma StandardBelowProgressive()
    ensures EnablesAtLeast(Standard, Progressive)
  {
    TemplatesCoverDefaults();
    assert forall i :: 0 <= i < 9 ==> Standard[i].key == TemplateKeys(Standard)[i];
    assert forall i :: 0 <= i < 9 ==> Progressive[i].key == TemplateKeys(Progressive)[i];
  }

  lemma ProgressiveMatchesInnovation()
    ensures EnablesAtLeast(Progressive, Innovation) && EnablesAtLeast(Innovation, Progressive)
  {
    TemplatesCoverDefaults();
    assert forall i :: 0 <= i < 9 ==> Progressive[i].key == TemplateKeys(Progressive)[i];
    assert forall i :: 0 <= i < 9 ==> Innovation[i].key == TemplateKeys(Innovation)[i];
  }

  /** The entry a template gives for `key`: the last one, as a dict literal keeps. */
  function EntryFor(t: seq<TemplateEntry>, key: string): (r: Option<TemplateEntry>)
    ensures r.Some? ==> r.value in t && r.value.key == key
    ensures r.None? <==> forall i :: 0 <= i < |t| ==> t[i].key != key
  {
    if t == [] then None
    else if t[|t| - 1].key == key then Some(t[|t| - 1])
    else EntryFor(t[..|t| - 1], key)
  }

  /** The row one template entry writes, if the organization has a row for its key. */
  function ApplyEntry(rows: seq<Feature>, org: Option<int>, e: TemplateEntry): (r: seq<Feature>)
    ensures SameKeys(rows, r)
  {
    match FirstIndex(rows, org, e.key)
    case None => rows
    case Some(j) => rows[j := rows[j].(isEnabled := e.enabled, configuration := Some(ConfigOrEmpty(e.config)))]
  }

  /** The template loop after its first `|t|` entries. */
  function ApplyEntries(rows: seq<Feature>, org: Option<int>, t: seq<TemplateEntry>): (r: seq<Feature>)
    ensures SameKeys(rows, r)
  {
    if t == [] then rows
    else ApplyEntry(ApplyEntries(rows, org, t[..|t| - 1]), org, t[|t| - 1])
  }

  /** What a template does to row `j`. */
  function TemplateRow(rows: seq<Feature>, org: Option<int>, t: seq<TemplateEntry>, j: nat): Feature
    requires j < |rows|
  {
    if IsFirst(rows, org, j) && EntryFor(t, rows[j].key).Some? then
      var e := EntryFor(t, rows[j].key).value;
      rows[j].(isEnabled := e.enabled, configuration := Some(ConfigOrEmpty(e.config)))
    else rows[j]
  }

  /**
   * Applying a template: the first row of the organization for each listed
   * key takes the entry's flag and its configuration, or `{}` when it gives
   * none; keys with no row are skipped; every other row is unchanged.
   */
  lemma {:induction false} ApplyEntriesEffect(rows: seq<Feature>, org: Option<int>, t: seq<TemplateEntry>)
    ensures |ApplyEntries(rows, org, t)| == |rows|
    ensures forall j :: 0 <= j < |rows| ==> ApplyEntries(rows, org, t)[j] == TemplateRow(rows, org, t, j)
  {
    if t != [] {
      var t' := t[..|t| - 1];
      var e := t[|t| - 1];
      var mid := ApplyEntries(rows, org, t');
      ApplyEntriesEffect(rows, org, t');
      FirstIndexSameKeys(rows, mid, org, e.key, 0);
      forall j | 0 <= j < |rows|
        ensures ApplyEntries(rows, org, t)[j] == TemplateRow(rows, org, t, j)
      {
        assert IsFirst(rows, org, j) <==> IsFirst(mid, org, j);
        if rows[j].key == e.key {
          assert EntryFor(t, rows[j].key) == Some(e);
        } else {
          assert EntryFor(t, rows[j].key) == EntryFor(t', rows[j].key);
        }
      }
    }
  }

  /** One catalog entry of `get_available_features`. */
  datatype CatalogEntry = CatalogEntry(tier: nat, key: string, name: string, riskLevel: string, moderationRequired: bool)

  const Catalog: seq<CatalogEntry> := [
    CatalogEntry(1, "resource_library", "Resource Library", "low", false),
    CatalogEntry(1, "grant_statistics", "Grant Statistics", "low", false),
    CatalogEntry(1, "grant_calendar", "Grant Calendar", "low", false),
    CatalogEntry(2, "qa_platform", "Q&A Platform", "medium", true),
    CatalogEntry(2, "success_stories", "Success Stories", "medium", true),
    CatalogEntry(2, "networking_events", "Networking Events", "medium", true),
    CatalogEntry(3, "forums", "Discussion Forums", "high", true),
    CatalogEntry(3, "professional_marketplace", "Professional Marketplace", "high", true),
    CatalogEntry(3, "networking", "User Networking", "high", false),
    CatalogEntry(3, "gamification", "Gamification", "medium", false)
  ]

  /**
   * `networking_events` is offered in the catalog (the only catalog key not
   * seeded) but is neither seeded nor named by any template.
   */
  lemma NetworkingEventsIsNeverSeeded()
    ensures Catalog[5].key == "networking_events"
    ensures "networking_events" !in SeedKeys(DefaultSeeds)
    ensures EntryFor(Conservative, "networking_events").None? && EntryFor(Standard, "networking_events").None?
    ensures EntryFor(Progressive, "networking_events").None? && EntryFor(Innovation, "networking_events").None?
  {
    TemplatesCoverDefaults();
    var keys := SeedKeys(DefaultSeeds);
    assert forall i :: 0 <= i < 9 ==> keys[i] != "networking_events";
    NotListed(Conservative, keys, "networking_events");
    NotListed(Standard, keys, "networking_events");
    NotListed(Progressive, keys, "networking_events");
    NotListed(Innovation, keys, "networking_events");
  }

  lemma NotListed(t: seq<TemplateEntry>, keys: seq<string>, key: string)
    requires TemplateKeys(t) == keys && key !in keys
    ensures EntryFor(t, key).None?
  {
    forall i | 0 <= i < |t|
      ensures t[i].key != key
    {
      assert keys[i] == t[i].key;
    }
  }

  /** Every other catalog key is seeded, in the catalog's tier. */
  lemma CatalogTiersMatchDefaults()
    ensures forall i :: 0 <= i < |Catalog| && i != 5 ==>
              var j := if i < 5 then i else i - 1;
              DefaultSeeds[j].key == Catalog[i].key && DefaultSeeds[j].tier == Catalog[i].tier
  {
  }

  /** The feature-toggle table. */
  class ToggleStore {
    var rows: seq<Feature>
    var nextId: nat

    ghost predicate Valid()
      reads this
    {
      nextId >= 1 && forall i :: 0 <= i < |rows| ==> 1 <= rows[i].id < nextId
    }

    constructor ()
      ensures Valid() && rows == []
    {
      rows := [];
      nextId := 1;
    }

    /** `_create_default_features`: appends the nine default rows. */
    method CreateDefaultFeatures(org: Option<int>) returns (created: seq<Feature>)
      requires Valid()
      modifies this
      ensures Valid()
      ensures created == SeedRows(org, DefaultSeeds, old(nextId))
      ensures rows == old(rows) + created
    {
      created := AddSeeds(org, DefaultSeeds);
    }

    /** The seeding loop: one row per seed, in order, under consecutive ids. */
    method AddSeeds(org: Option<int>, seeds: seq<Seed>) returns (created: seq<Feature>)
      requires Valid()
      modifies this
      ensures Valid()
      ensures created == SeedRows(org, seeds, old(nextId))
      ensures rows == old(rows) + created
    {
      created := [];
      var first := nextId;
      var i := 0;
      while i < |seeds|
        invariant 0 <= i <= |seeds|
        invariant nextId == first + i
        invariant created == SeedRows(org, seeds[..i], first)
        invariant rows == old(rows) + created
        invariant Valid()
      {
        var s := seeds[i];
        var f := Feature(nextId, org, s.key, s.name, s.tier, s.riskLevel, s.enabled, Some(s.config));
        assert seeds[..i + 1] == seeds[..i] + [s];
        created := created + [f];
        rows := rows + [f];
        nextId := nextId + 1;
        i := i + 1;
      }
      assert seeds[..i] == seeds;
    }

    /**
     * `get_organization_features`: the organization's rows, seeding the
     * defaults first when it has none.  Afterwards the organization always
     * has rows, so a second read writes nothing and returns the same rows.
     */
    method OrganizationFeatures(org: Option<int>) returns (fs: seq<Feature>)
      requires Valid()
      modifies this
      ensures Valid()
      ensures fs == RowsOf(rows, org) && |fs| > 0
      ensures old(RowsOf(rows, org)) != [] ==> rows == old(rows) && nextId == old(nextId)
      ensures old(RowsOf(rows, org)) == [] ==> rows == old(rows) + SeedRows(org, DefaultSeeds, old(nextId))
                                               && fs == SeedRows(org, DefaultSeeds, old(nextId))
    {
      fs := RowsOf(rows, org);
      if fs == [] {
        var before := rows;
        var created := CreateDefaultFeatures(org);
        RowsOfAppend(before, created, org);
        assert RowsOf(created, org) == created by {
          SeedRowsOwnOrganization(org, DefaultSeeds, old(nextId));
        }
        fs := created;
      }
    }

    /** `update_feature_toggle`: `None` (the `ValueError`) when the organization has no such row. */
    method UpdateFeatureToggle(org: Option<int>, key: string, u: ToggleUpdate) returns (r: Option<Feature>)
      requires Valid()
      modifies this
      ensures Valid() && nextId == old(nextId)
      ensures r.None? <==> FirstIndex(old(rows), org, key).None?
      ensures r.None? ==> rows == old(rows)
      ensures r.Some? ==> var j := FirstIndex(old(rows), org, key).value;
                          r.value == ApplyToggleUpdate(old(rows)[j], u) && rows == old(rows)[j := r.value]
    {
      var found := FirstIndex(rows, org, key);
      if found.None? {
        return None;
      }
      var j := found.value;
      var f := ApplyToggleUpdate(rows[j], u);
      rows := rows[j := f];
      r := Some(f);
    }

    /** `get_feature_configuration`: the first matching row's flag and configuration. */
    function FeatureConfiguration(org: Option<int>, key: string): (r: Option<(bool, Option<Config>)>)
      reads this
      ensures r.None? <==> forall i :: 0 <= i < |rows| ==> !Matches(rows[i], org, key)
      ensures r.Some? ==> exists j :: IsFirst(rows, org, j) && rows[j].key == key
                                      && r.value == (rows[j].isEnabled, rows[j].configuration)
    {
      match FirstIndex(rows, org, key)
      case None => None
      case Some(j) => Some((rows[j].isEnabled, rows[j].configuration))
    }

    /**
     * `update_feature_configuration`: a non-`None` configuration replaces the
     * stored one; the flag never changes.
     */
    method UpdateFeatureConfiguration(org: Option<int>, key: string, config: Option<Config>) returns (r: Option<Feature>)
      requires Valid()
      modifies this
      ensures Valid() && nextId == old(nextId)
      ensures r.None? <==> FirstIndex(old(rows), org, key).None?
      ensures r.None? ==> rows == old(rows)
      ensures r.Some? ==> var j := FirstIndex(old(rows), org, key).value;
                          r.value.isEnabled == old(rows)[j].isEnabled
                          && r.value.configuration == (if config.Some? then config else old(rows)[j].configuration)
                          && r.value == old(rows)[j].(configuration := r.value.configuration)
                          && rows == old(rows)[j := r.value]
    {
      var found := FirstIndex(rows, org, key);
      if found.None? {
        return None;
      }
      var j := found.value;
      var f := if config.Some? then rows[j].(configuration := config) else rows[j];
      rows := rows[j := f];
      r := Some(f);
    }

    /**
     * `reset_to_template`: `false` (the `ValueError`) for an unknown name,
     * before any row is touched; otherwise each entry in turn is written to
     * the organization's first row for its key.
     */
    method ResetToTemplate(org: Option<int>, name: string) returns (ok: bool)
      requires Valid()
      modifies this
      ensures Valid() && nextId == old(nextId)
      ensures ok <==> TemplateNamed(name).Some?
      ensures !ok ==> rows == old(rows)
      ensures ok ==> rows == ApplyEntries(old(rows), org, TemplateNamed(name).value)
    {
      var template := TemplateNamed(name);
      if template.None? {
        return false;
      }
      ApplyTemplate(org, template.value);
      ok := true;
    }

    /** The loop of `reset_to_template` over the entries of a known template. */
    method ApplyTemplate(org: Option<int>, t: seq<TemplateEntry>)
      requires Valid()
      modifies this
      ensures Valid() && nextId == old(nextId)
      ensures rows == ApplyEntries(old(rows), org, t)
    {
      var i := 0;
      while i < |t|
        invariant 0 <= i <= |t|
        invariant rows == ApplyEntries(old(rows), org, t[..i])
        invariant Valid() && nextId == old(nextId)
      {
        assert t[..i + 1][..i] == t[..i];
        ApplyTemplateEntry(org, t[i]);
        i := i + 1;
      }
      assert t[..i] == t;
    }

    /** One entry of `reset_to_template`: the organization's first row for the key takes the entry's values. */
    method ApplyTemplateEntry(org: Option<int>, e: TemplateEntry)
      requires Valid()
      modifies this
      ensures Valid() && nextId == old(nextId)
      ensures rows == ApplyEntry(old(rows), org, e)
    {
      var found := FirstIndex(rows, org, e.key);
      if found.Some? {
        var j := found.value;
        rows := rows[j := rows[j].(isEnabled := e.enabled, configuration := Some(ConfigOrEmpty(e.config)))];
      }
    }
  }

  lemma SeedRowsOwnOrganization(org: Option<int>, seeds: seq<Seed>, firstId: nat)
    ensures RowsOf(SeedRows(org, seeds, firstId), org) == SeedRows(org, seeds, firstId)
  {
    var rows := SeedRows(org, seeds, firstId);
    RowsOfAll(rows, org);
  }

  lemma {:induction false} RowsOfAll(rows: seq<Feature>, org: Option<int>)
    requires forall i :: 0 <= i < |rows| ==> rows[i].organizationId == org
    ensures RowsOf(rows, org) == rows
  {
    if rows != [] {
      var init := rows[..|rows| - 1];
      var last := rows[|rows| - 1];
      forall i | 0 <= i < |init|
        ensures init[i].organizationId == org
      {
        assert init[i] == rows[i];
      }
      RowsOfAll(init, org);
      assert last.organizationId == org;
      assert RowsOf(rows, org) == RowsOf(init, org) + [last];
      assert init + [last] == rows;
    }
  }
}

/**
 * The map enhancement step of `enhanced_mapping_data_processor.py`: each
 * grant of the mapping data gets coordinates from a table of place names
 * (its city first, its state as a fallback), grants with coordinates become
 * map markers, and grants in a known metropolitan region are gathered into
 * regional clusters.
 */
module EnhancedMapping {
  import opened Common
  import opened Text

  /** A text-or-null key of a grant's `location` dictionary, or its absence. */
  datatype Field = Absent | Null | Str(s: string)

  /** Python truthiness of a location key's value. */
  predicate FieldTruthy(f: Field)
  {
    f.Str? && f.s != ""
  }

  datatype Coordinates = Coordinates(lat: real, lng: real)

  /** A grant's `location` dictionary. */
  datatype GrantLocation = GrantLocation(city: Field, state: Field, postcode: Field, coordinates: Option<Coordinates>)

  /** A grant of the mapping data, reduced to the keys this step reads; `location` may be absent. */
  datatype MapGrant = MapGrant(
    id: string,
    title: string,
    value: real,
    valueFormatted: string,
    primary: string,
    color: Option<string>,
    icon: Option<string>,
    sizeCategory: string,
    recipient: string,
    agency: string,
    url: string,
    location: Option<GrantLocation>)

  /** One entry of the place table. */
  datatype Place = Place(lat: real, lng: real, state: string, postcode: string)

  /** The place table, keyed by upper-case city or state code. */
  const LocationTable: map<string, Place> := map[
    "ADELAIDE" := Place(-34.9285, 138.6007, "SA", "5000"),
    "HINDMARSH" := Place(-34.9089, 138.5678, "SA", "5007"),
    "SEFTON PARK" := Place(-34.8847, 138.5289, "SA", "5083"),
    "BRIGHTON" := Place(-37.9061, 145.0000, "VIC", "3186"),
    "CRANBOURNE EAST" := Place(-38.1167, 145.2833, "VIC", "3977"),
    "DANDENONG" := Place(-37.9833, 145.2167, "VIC", "3175"),
    "BLACKBURN" := Place(-37.8167, 145.1500, "VIC", "3130"),
    "CANBERRA" := Place(-35.2809, 149.1300, "ACT", "2600"),
    "ACT" := Place(-35.2809, 149.1300, "ACT", "2600"),
    "SA" := Place(-34.9285, 138.6007, "SA", "5000"),
    "VIC" := Place(-37.8136, 144.9631, "VIC", "3000"),
    "NSW" := Place(-33.8688, 151.2093, "NSW", "2000"),
    "QLD" := Place(-27.4698, 153.0251, "QLD", "4000"),
    "WA" := Place(-31.9505, 115.8605, "WA", "6000"),
    "TAS" := Place(-42.8821, 147.3272, "TAS", "7000"),
    "NT" := Place(-12.4634, 130.8456, "NT", "0800")
  ]

  /** A metropolitan region: its centre, its cities and its state. */
  datatype Region = Region(name: string, center: Coordinates, cities: seq<string>, state: string)

  /** The regions, in the insertion order of their dictionary. */
  const Regions: seq<Region> := [
    Region("Adelaide Metro", Coordinates(-34.9285, 138.6007), ["ADELAIDE", "HINDMARSH", "SEFTON PARK"], "SA"),
    Region("Melbourne Metro", Coordinates(-37.8136, 144.9631), ["BRIGHTON", "CRANBOURNE EAST", "DANDENONG", "BLACKBURN"], "VIC"),
    Region("Canberra", Coordinates(-35.2809, 149.1300), ["CANBERRA", "ACT"], "ACT")
  ]

  /** No city belongs to two regions. */
  lemma RegionsDisjoint()
    ensures forall i, j, c :: 0 <= i < j < |Regions| && c in Regions[i].cities ==> c !in Regions[j].cities
  {
  }

  // ---------------------------------------------------------------------
  // Coordinates of one grant
  // ---------------------------------------------------------------------

  /** `location.get(key, '').upper()`: `None` where `.upper()` is applied to a null. */
  function UpperKey(f: Field): Option<string>
  {
    match f
    case Absent => Some("")
    case Null => None
    case Str(s) => Some(Upper(s))
  }

  /** What `enhance_grant_coordinates` ends with: an exception, or the grant and whether coordinates were added. */
  datatype Enhancement = Raised | Enhanced(grant: MapGrant, added: bool)

  /** The location with coordinates from a table entry, and the postcode filled in when it is empty. */
  function Located(loc: GrantLocation, place: Place): GrantLocation
  {
    loc.(coordinates := Some(Coordinates(place.lat, place.lng)),
         postcode := if FieldTruthy(loc.postcode) then loc.postcode else Str(place.postcode))
  }

  /** `enhance_grant_coordinates` on a grant value. */
  function EnhanceGrant(g: MapGrant): (r: Enhancement)
    ensures r.Raised? <==> g.location.Some? && (g.location.value.city.Null? || g.location.value.state.Null?)
    ensures r.Enhanced? && !r.added ==> r.grant == g
    ensures r.Enhanced? && r.added ==> g.location.Some? && r.grant == g.(location := r.grant.location)
  {
    if g.location.None? then Enhanced(g, false)
    else
      var loc := g.location.value;
      var city := UpperKey(loc.city);
      var state := UpperKey(loc.state);
      if city.None? || state.None? then Raised
      else if city.value != "" && city.value in LocationTable then
        Enhanced(g.(location := Some(Located(loc, LocationTable[city.value]))), true)
      else if state.value != "" && state.value in LocationTable then
        var loc' := Located(loc, LocationTable[state.value]);
        Enhanced(g.(location := Some(if FieldTruthy(loc.city) then loc' else loc'.(city := Str(state.value)))), true)
      else Enhanced(g, false)
  }

  /**
   * A city found in the table takes precedence over the state: the grant
   * gets that city's coordinates, and its postcode is filled in only when
   * it had none; the city is not changed.
   */
  lemma CityFirst(g: MapGrant)
    requires g.location.Some? && g.location.value.city.Str? && !g.location.value.state.Null?
    requires Upper(g.location.value.city.s) != "" && Upper(g.location.value.city.s) in LocationTable
    ensures EnhanceGrant(g).Enhanced? && EnhanceGrant(g).added
    ensures var loc := EnhanceGrant(g).grant.location.value;
            var place := LocationTable[Upper(g.location.value.city.s)];
            loc.coordinates == Some(Coordinates(place.lat, place.lng)) && loc.city == g.location.value.city
            && (FieldTruthy(g.location.value.postcode) ==> loc.postcode == g.location.value.postcode)
            && (!FieldTruthy(g.location.value.postcode) ==> loc.postcode == Str(place.postcode))
  {
  }

  /**
   * Without a table city, a state found in the table gives the state's
   * coordinates; the city becomes the state code only when it was empty,
   * and the postcode is filled in only when it was empty.
   */
  lemma StateFallback(g: MapGrant)
    requires g.location.Some? && !g.location.value.city.Null? && g.location.value.state.Str?
    requires var city := UpperKey(g.location.value.city).value;
             !(city != "" && city in LocationTable)
    requires Upper(g.location.value.state.s) != "" && Upper(g.location.value.state.s) in LocationTable
    ensures EnhanceGrant(g).Enhanced? && EnhanceGrant(g).added
    ensures var loc := EnhanceGrant(g).grant.location.value;
            var state := Upper(g.location.value.state.s);
            var place := LocationTable[state];
            loc.coordinates == Some(Coordinates(place.lat, place.lng))
            && (FieldTruthy(g.location.value.city) ==> loc.city == g.location.value.city)
            && (!FieldTruthy(g.location.value.city) ==> loc.city == Str(state))
            && (FieldTruthy(g.location.value.postcode) ==> loc.postcode == g.location.value.postcode)
  {
  }

  /** With neither city nor state in the table, the grant is left as it was and nothing is added. */
  lemma NoPlaceUnchanged(g: MapGrant)
    requires g.location.Some? ==> !g.location.value.city.Null? && !g.location.value.state.Null?
    requires g.location.Some? ==>
               UpperKey(g.location.value.city).value !in LocationTable && UpperKey(g.location.value.state).value !in LocationTable
    ensures EnhanceGrant(g) == Enhanced(g, false)
  {
  }

  /** A grant whose coordinates were added has coordinates and a non-null city. */
  lemma AddedHasCoordinates(g: MapGrant)
    requires EnhanceGrant(g).Enhanced? && EnhanceGrant(g).added
    ensures EnhanceGrant(g).grant.location.Some?
    ensures EnhanceGrant(g).grant.location.value.coordinates.Some?
    ensures !EnhanceGrant(g).grant.location.value.city.Null?
  {
  }

  // ---------------------------------------------------------------------
  // Markers
  // ---------------------------------------------------------------------

  /** `if coordinates:` on a grant's location. */
  predicate HasCoordinates(g: MapGrant)
  {
    g.location.Some? && g.location.value.coordinates.Some?
  }

  /** A location key as rendered by an f-string: absent as empty text, null as 'None'. */
  function Render(f: Field): string
  {
    match f
    case Absent => ""
    case Null => "None"
    case Str(s) => s
  }

  /** One map marker. */
  datatype Marker = Marker(
    id: string, lat: real, lng: real, title: string, value: real, valueFormatted: string,
    category: string, color: Option<string>, icon: Option<string>, sizeCategory: string,
    locationName: string, recipient: string, agency: string, url: string)

  /** The marker of a grant with coordinates. */
  function MarkerOf(g: MapGrant): (m: Marker)
    requires HasCoordinates(g)
    ensures m.id == g.id && (m.lat, m.lng) == (g.location.value.coordinates.value.lat, g.location.value.coordinates.value.lng)
  {
    var loc := g.location.value;
    Marker(g.id, loc.coordinates.value.lat, loc.coordinates.value.lng, g.title, g.value, g.valueFormatted,
           g.primary, g.color, g.icon, g.sizeCategory,
           Render(loc.city) + ", " + Render(loc.state), g.recipient, g.agency, g.url)
  }

  /** The markers of the grants with coordinates, in order. */
  function MarkersOf(grants: seq<MapGrant>): (ms: seq<Marker>)
    ensures |ms| == CountWhere(grants, HasCoordinates)
  {
    if grants == [] then []
    else
      var g := grants[|grants| - 1];
      MarkersOf(grants[..|grants| - 1]) + (if HasCoordinates(g) then [MarkerOf(g)] else [])
  }

  /** `create_map_markers`: one marker per grant with coordinates. */
  method CreateMapMarkers(grants: seq<MapGrant>) returns (markers: seq<Marker>)
    ensures markers == MarkersOf(grants)
  {
    markers := [];
    var i := 0;
    while i < |grants|
      invariant 0 <= i <= |grants|
      invariant markers == MarkersOf(grants[..i])
    {
      assert grants[..i + 1][..i] == grants[..i];
      if HasCoordinates(grants[i]) {
        markers := markers + [MarkerOf(grants[i])];
      }
      i := i + 1;
    }
    assert grants[..i] == grants;
  }

  // ---------------------------------------------------------------------
  // Regional clusters
  // ---------------------------------------------------------------------

  /** `grant.get('location', {}).get('city', '').upper()`, `None` where it raises. */
  function CityKey(g: MapGrant): Option<string>
  {
    if g.location.None? then Some("") else UpperKey(g.location.value.city)
  }

  /** A grant belongs to a region when its upper-case city is one of the region's cities. */
  predicate InRegion(g: MapGrant, r: Region)
  {
    CityKey(g).Some? && CityKey(g).value in r.cities
  }

  /** The grants of a region, in order. */
  function RegionGrants(grants: seq<MapGrant>, r: Region): (rs: seq<MapGrant>)
    ensures |rs| == CountWhere(grants, (g: MapGrant) => InRegion(g, r))
    ensures forall g :: g in rs ==> g in grants && InRegion(g, r)
  {
    if grants == [] then []
    else
      var g := grants[|grants| - 1];
      RegionGrants(grants[..|grants| - 1], r) + (if InRegion(g, r) then [g] else [])
  }

  /** `sum of grant.get('value', 0)` over grants. */
  function TotalValue(grants: seq<MapGrant>): real
  {
    if grants == [] then 0.0 else TotalValue(grants[..|grants| - 1]) + grants[|grants| - 1].value
  }

  function PrimaryOf(g: MapGrant): string
  {
    g.primary
  }

  /** One regional cluster. */
  datatype Cluster = Cluster(
    name: string, center: Coordinates, state: string, grantCount: nat, totalValue: real,
    grants: seq<MapGrant>, categories: map<string, nat>)

  /** The cluster of a region. */
  function ClusterOf(r: Region, grants: seq<MapGrant>): Cluster
  {
    var rs := RegionGrants(grants, r);
    Cluster(r.name, r.center, r.state, |rs|, TotalValue(rs), rs, Tally(rs, PrimaryOf))
  }

  /** The clusters of the regions that hold at least one grant, in region order. */
  function ClustersOf(regions: seq<Region>, grants: seq<MapGrant>): seq<Cluster>
  {
    if regions == [] then []
    else
      var r := regions[|regions| - 1];
      ClustersOf(regions[..|regions| - 1], grants)
        + (if RegionGrants(grants, r) != [] then [ClusterOf(r, grants)] else [])
  }

  /** Whether the city lookup raises for some grant. */
  predicate AnyNullCity(grants: seq<MapGrant>)
  {
    exists g :: g in grants && CityKey(g).None?
  }

  /**
   * One pass of `create_region_clusters` over the grants for one region:
   * the grants whose upper-case city is among the region's cities, and
   * their total value. A null city raises.
   */
  method GatherRegion(grants: seq<MapGrant>, region: Region) returns (r: Option<(seq<MapGrant>, real)>)
    ensures r.None? <==> AnyNullCity(grants)
    ensures r.Some? ==> r.value.0 == RegionGrants(grants, region) && r.value.1 == TotalValue(r.value.0)
  {
    var regionGrants: seq<MapGrant> := [];
    var total := 0.0;
    var i := 0;
    while i < |grants|
      invariant 0 <= i <= |grants|
      invariant forall j :: 0 <= j < i ==> CityKey(grants[j]).Some?
      invariant regionGrants == RegionGrants(grants[..i], region)
      invariant total == TotalValue(regionGrants)
    {
      var city := CityKey(grants[i]);
      if city.None? {
        assert grants[i] in grants;
        return None;
      }
      regionGrants, total := GatherStep(grants, region, i, regionGrants, total);
      i := i + 1;
    }
    assert grants[..i] == grants;
    r := Some((regionGrants, total));
  }

  /** One grant of the region pass: kept, and its value added, when its city is one of the region's. */
  method GatherStep(grants: seq<MapGrant>, region: Region, i: nat, regionGrants: seq<MapGrant>, total: real)
    returns (rg: seq<MapGrant>, t: real)
    requires i < |grants| && CityKey(grants[i]).Some?
    requires regionGrants == RegionGrants(grants[..i], region) && total == TotalValue(regionGrants)
    ensures rg == RegionGrants(grants[..i + 1], region) && t == TotalValue(rg)
  {
    assert grants[..i + 1][..i] == grants[..i];
    rg, t := regionGrants, total;
    if CityKey(grants[i]).value in region.cities {
      rg := regionGrants + [grants[i]];
      assert rg[..|rg| - 1] == regionGrants;
      t := total + grants[i].value;
    }
  }

  /**
   * `create_region_clusters`: for each region, the grants in it, their
   * total value and their category counts; regions without grants are
   * skipped. A null city raises. The regions are those of the processor,
   * `Regions`.
   */
  method CreateRegionClusters(regions: seq<Region>, grants: seq<MapGrant>) returns (r: Option<seq<Cluster>>)
    requires regions != []
    ensures r.None? <==> AnyNullCity(grants)
    ensures r.Some? ==> r.value == ClustersOf(regions, grants)
  {
    var clusters: seq<Cluster> := [];
    var k := 0;
    while k < |regions|
      invariant 0 <= k <= |regions|
      invariant k > 0 ==> !AnyNullCity(grants)
      invariant clusters == ClustersOf(regions[..k], grants)
    {
      var region := regions[k];
      var gathered := GatherRegion(grants, region);
      if gathered.None? {
        return None;
      }
      var regionGrants := gathered.value.0;
      var total := gathered.value.1;
      assert regions[..k + 1][..k] == regions[..k];
      if regionGrants != [] {
        var categories := CountBy(regionGrants, PrimaryOf);
        clusters := clusters + [Cluster(region.name, region.center, region.state, |regionGrants|, total,
                                        regionGrants, categories)];
      }
      k := k + 1;
    }
    assert regions[..k] == regions;
    r := Some(clusters);
  }

  /** A grant belongs to at most one region, so no grant is listed in two clusters. */
  lemma ClustersDisjoint(grants: seq<MapGrant>, g: MapGrant, i: nat, j: nat)
    requires i < j < |Regions|
    ensures !(InRegion(g, Regions[i]) && InRegion(g, Regions[j]))
    ensures !(g in RegionGrants(grants, Regions[i]) && g in RegionGrants(grants, Regions[j]))
  {
    RegionsDisjoint();
  }

  function ClusterSize(c: Cluster): int
  {
    c.grantCount
  }

  /** The number of grants in the regions of a list, counted region by region. */
  function RegionTotal(regions: seq<Region>, grants: seq<MapGrant>): nat
  {
    if regions == [] then 0
    else RegionTotal(regions[..|regions| - 1], grants) + |RegionGrants(grants, regions[|regions| - 1])|
  }

  /** The clustered counts add up to the region total. */
  lemma {:induction false} ClusterCounts(regions: seq<Region>, grants: seq<MapGrant>)
    ensures SumOf(ClustersOf(regions, grants), ClusterSize) == RegionTotal(regions, grants)
  {
    if regions != [] {
      var init := regions[..|regions| - 1];
      ClusterCounts(init, grants);
      var before := ClustersOf(init, grants);
      var r := regions[|regions| - 1];
      var c := ClusterOf(r, grants);
      assert c.grantCount == |RegionGrants(grants, r)|;
      assert RegionTotal(regions, grants) == RegionTotal(init, grants) + |RegionGrants(grants, r)|;
      if RegionGrants(grants, r) != [] {
        var after := before + [c];
        assert ClustersOf(regions, grants) == after;
        assert after[..|after| - 1] == before;
        assert SumOf(after, ClusterSize) == SumOf(before, ClusterSize) + c.grantCount;
      } else {
        assert ClustersOf(regions, grants) == before + [];
        assert before + [] == before;
      }
    }
  }

  /** How many of the regions a grant belongs to. */
  function Memberships(regions: seq<Region>, g: MapGrant): nat
  {
    if regions == [] then 0
    else Memberships(regions[..|regions| - 1], g) + (if InRegion(g, regions[|regions| - 1]) then 1 else 0)
  }

  /** With disjoint city lists, a grant belongs to at most one region. */
  lemma {:induction false} AtMostOneRegion(regions: seq<Region>, g: MapGrant)
    requires forall i, j, c :: 0 <= i < j < |regions| && c in regions[i].cities ==> c !in regions[j].cities
    ensures Memberships(regions, g) <= 1
    ensures Memberships(regions, g) == 0 <== forall i :: 0 <= i < |regions| ==> !InRegion(g, regions[i])
  {
    if regions != [] {
      var init := regions[..|regions| - 1];
      AtMostOneRegion(init, g);
      if InRegion(g, regions[|regions| - 1]) {
        forall i | 0 <= i < |init|
          ensures !InRegion(g, init[i])
        {
          assert init[i] == regions[i];
        }
      }
      MembershipsZero(init, g);
    }
  }

  /** A grant outside every region of a list has no membership in it. */
  lemma {:induction false} MembershipsZero(regions: seq<Region>, g: MapGrant)
    ensures (forall i :: 0 <= i < |regions| ==> !InRegion(g, regions[i])) ==> Memberships(regions, g) == 0
    ensures Memberships(regions, g) == 0 ==> forall i :: 0 <= i < |regions| ==> !InRegion(g, regions[i])
  {
    if regions != [] {
      var init := regions[..|regions| - 1];
      MembershipsZero(init, g);
      forall i | 0 <= i < |init|
        ensures init[i] == regions[i]
      {
      }
    }
  }

  /** Adding a grant to the list adds its memberships to the region total. */
  lemma {:induction false} RegionTotalStep(regions: seq<Region>, grants: seq<MapGrant>, g: MapGrant)
    ensures RegionTotal(regions, grants + [g]) == RegionTotal(regions, grants) + Memberships(regions, g)
  {
    if regions != [] {
      RegionTotalStep(regions[..|regions| - 1], grants, g);
      assert (grants + [g])[..|grants + [g]| - 1] == grants;
    }
  }

  /** Clusters never count more grants than there are. */
  lemma {:induction false} RegionTotalBound(regions: seq<Region>, grants: seq<MapGrant>)
    requires forall i, j, c :: 0 <= i < j < |regions| && c in regions[i].cities ==> c !in regions[j].cities
    ensures RegionTotal(regions, grants) <= |grants|
  {
    if grants == [] {
      RegionTotalEmpty(regions);
    } else {
      var init := grants[..|grants| - 1];
      var g := grants[|grants| - 1];
      assert init + [g] == grants;
      RegionTotalBound(regions, init);
      RegionTotalStep(regions, init, g);
      AtMostOneRegion(regions, g);
    }
  }

  lemma {:induction false} RegionTotalEmpty(regions: seq<Region>)
    ensures RegionTotal(regions, []) == 0
  {
    if regions != [] {
      RegionTotalEmpty(regions[..|regions| - 1]);
    }
  }

  /** The grant counts of the clusters add up to at most the number of grants. */
  lemma ClusteredAtMostAll(grants: seq<MapGrant>)
    ensures SumOf(ClustersOf(Regions, grants), ClusterSize) <= |grants|
  {
    RegionsDisjoint();
    ClusterCounts(Regions, grants);
    RegionTotalBound(Regions, grants);
  }

  // ---------------------------------------------------------------------
  // The whole step
  // ---------------------------------------------------------------------

  /** The grants after enhancement and the number given coordinates, `None` when one raises. */
  function EnhanceAll(grants: seq<MapGrant>): Option<(seq<MapGrant>, nat)>
  {
    if grants == [] then Some(([], 0))
    else match (EnhanceAll(grants[..|grants| - 1]), EnhanceGrant(grants[|grants| - 1]))
      case (Some((gs, n)), Enhanced(g, added)) => Some((gs + [g], if added then n + 1 else n))
      case _ => None
  }

  /** Enhancement keeps one grant per grant, counts at most all of them, and every added grant has coordinates. */
  lemma {:induction false} EnhanceAllFacts(grants: seq<MapGrant>)
    requires EnhanceAll(grants).Some?
    ensures |EnhanceAll(grants).value.0| == |grants|
    ensures EnhanceAll(grants).value.1 <= CountWhere(EnhanceAll(grants).value.0, HasCoordinates)
    ensures EnhanceAll(grants).value.1 <= |grants|
    ensures !AnyNullCity(EnhanceAll(grants).value.0)
  {
    if grants != [] {
      var init := grants[..|grants| - 1];
      var last := grants[|grants| - 1];
      EnhanceAllFacts(init);
      var (gs, n) := EnhanceAll(init).value;
      var e := EnhanceGrant(last);
      var all := gs + [e.grant];
      assert all[..|all| - 1] == gs;
      if e.added {
        AddedHasCoordinates(last);
      }
      forall g | g in all
        ensures CityKey(g).Some?
      {
        if g != e.grant {
          assert g in gs;
        }
      }
    }
  }

  /** A grant that raises makes the whole enhancement raise. */
  lemma {:induction false} EnhanceAllRaises(grants: seq<MapGrant>)
    ensures EnhanceAll(grants).None? <==> exists g :: g in grants && EnhanceGrant(g).Raised?
  {
    if grants != [] {
      var init := grants[..|grants| - 1];
      EnhanceAllRaises(init);
      if exists g :: g in init && EnhanceGrant(g).Raised? {
        var g :| g in init && EnhanceGrant(g).Raised?;
        assert g in grants;
      }
      if exists g :: g in grants && EnhanceGrant(g).Raised? {
        var g :| g in grants && EnhanceGrant(g).Raised?;
        var k :| 0 <= k < |grants| && grants[k] == g;
        if k < |grants| - 1 {
          assert init[k] == g;
        }
      }
    }
  }

  /** The enhanced mapping data. */
  datatype EnhancedData = EnhancedData(
    grants: seq<MapGrant>,
    markers: seq<Marker>,
    clusters: seq<Cluster>,
    coordinatesAdded: nat,
    totalGrants: nat,
    regions: nat,
    mapMarkers: nat)

  /** What `enhance_mapping_data` ends with. */
  datatype Outcome = NoData | Failed | Done(data: EnhancedData)

  /**
   * `enhance_mapping_data`: enhance every grant in order, counting those
   * given coordinates, then build the markers and the clusters of the
   * enhanced grants. Mapping data that is absent gives nothing.
   */
  method EnhanceMappingData(grants: Option<seq<MapGrant>>) returns (o: Outcome)
    ensures o.NoData? <==> grants.None?
    ensures o.Failed? <==> grants.Some? && exists g :: g in grants.value && EnhanceGrant(g).Raised?
    ensures o.Done? ==> grants.Some? && EnhanceAll(grants.value).Some?
    ensures o.Done? ==> o.data.grants == EnhanceAll(grants.value).value.0
                        && o.data.coordinatesAdded == EnhanceAll(grants.value).value.1
    ensures o.Done? ==> o.data.totalGrants == |grants.value| && o.data.coordinatesAdded <= o.data.totalGrants
    ensures o.Done? ==> o.data.markers == MarkersOf(o.data.grants) && o.data.coordinatesAdded <= |o.data.markers|
    ensures o.Done? ==> o.data.clusters == ClustersOf(Regions, o.data.grants)
    ensures o.Done? ==> o.data.regions == |o.data.clusters| && o.data.mapMarkers == |o.data.markers|
  {
    if grants.None? {
      return NoData;
    }
    var gs := grants.value;
    var enhanced: seq<MapGrant> := [];
    var added := 0;
    var i := 0;
    while i < |gs|
      invariant 0 <= i <= |gs|
      invariant EnhanceAll(gs[..i]) == Some((enhanced, added))
    {
      assert gs[..i + 1][..i] == gs[..i];
      var e := EnhanceGrant(gs[i]);
      if e.Raised? {
        EnhanceAllRaises(gs);
        assert gs[i] in gs;
        return Failed;
      }
      if e.added {
        added := added + 1;
      }
      enhanced := enhanced + [e.grant];
      i := i + 1;
    }
    assert gs[..i] == gs;
    EnhanceAllRaises(gs);
    EnhanceAllFacts(gs);
    var markers := CreateMapMarkers(enhanced);
    var clusters := CreateRegionClusters(Regions, enhanced);
    o := Done(EnhancedData(enhanced, markers, clusters.value, added, |gs|, |clusters.value|, |markers|));
  }
}

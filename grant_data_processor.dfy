/**
 * The offline pipeline of `grant_data_processor.py`: each loaded grant record
 * is given keyword categories, a funding-size band, map coordinates and a
 * category style, and the processed records are turned into the data of the
 * grant map together with its summary counters.
 */
module GrantDataProcessor {
  import opened Common
  import opened Text

  /**
   * A loaded grant record, reduced to the keys the pipeline reads; `None`
   * stands for a key the record does not have.
   */
  datatype RawGrant = RawGrant(
    gaId: Option<string>,
    agency: Option<string>,
    category: Option<string>,
    grantProgram: Option<string>,
    grantActivity: Option<string>,
    purpose: Option<string>,
    recipientName: Option<string>,
    value: Option<real>,
    recipientPostcode: Option<string>,
    deliveryPostcode: Option<string>,
    recipientState: Option<string>,
    deliveryState: Option<string>,
    approvalDate: Option<string>,
    publishDate: Option<string>,
    grantTerm: Option<string>)

  /** `grant.get(key, default)` on a text key. */
  function TextOr(o: Option<string>, default: string): string
  {
    if o.Some? then o.value else default
  }

  /** `grant.get('value_aud', 0)`. */
  function ValueOr0(o: Option<real>): real
  {
    if o.Some? then o.value else 0.0
  }

  /** Python truthiness of an optional text: absent and empty are both false. */
  predicate Present(o: Option<string>)
  {
    o.Some? && o.value != ""
  }

  // ---------------------------------------------------------------------
  // Category catalog and keyword scoring
  // ---------------------------------------------------------------------

  /** One entry of the category catalog: its keyword list and its map style. */
  datatype Category = Category(name: string, keywords: seq<string>, color: string, icon: string)

  /** The catalog, in the insertion order of the dictionary it models. */
  const Catalog: seq<Category> := [
    Category("Health & Social Services",
      ["health", "social", "medical", "disability", "aged care", "mental health",
       "healthcare", "wellbeing", "support services", "community health"],
      "#e74c3c", "heart"),
    Category("Education & Training",
      ["education", "training", "school", "university", "research", "student",
       "learning", "academic", "scholarship", "curriculum"],
      "#3498db", "graduation-cap"),
    Category("Infrastructure & Development",
      ["infrastructure", "construction", "development", "transport", "roads",
       "building", "facilities", "maintenance", "upgrade", "capital works"],
      "#95a5a6", "building"),
    Category("Environment & Sustainability",
      ["environment", "sustainability", "climate", "renewable", "conservation",
       "green", "carbon", "biodiversity", "ecosystem", "pollution"],
      "#27ae60", "leaf"),
    Category("Arts & Culture",
      ["arts", "culture", "creative", "heritage", "museum", "festival",
       "cultural", "artistic", "performance", "exhibition"],
      "#9b59b6", "palette"),
    Category("Technology & Innovation",
      ["technology", "innovation", "digital", "tech", "startup", "research",
       "innovation", "digital transformation", "IT", "software"],
      "#f39c12", "laptop"),
    Category("Community Services",
      ["community", "volunteer", "local", "neighbourhood", "civic",
       "community development", "social cohesion", "engagement"],
      "#1abc9c", "users"),
    Category("Emergency & Safety",
      ["emergency", "disaster", "safety", "security", "fire", "flood",
       "resilience", "preparedness", "response", "recovery"],
      "#e67e22", "shield"),
    Category("Economic Development",
      ["economic", "business", "employment", "jobs", "industry",
       "commerce", "trade", "investment", "entrepreneurship"],
      "#34495e", "briefcase")
  ]

  /** The fallback category name used when no catalog entry matches. */
  const OtherName: string := "Other"

  /** Catalog names are distinct and none of them is the fallback name. */
  lemma CatalogNames()
    ensures forall i, j :: 0 <= i < j < |Catalog| ==> Catalog[i].name != Catalog[j].name
    ensures forall i :: 0 <= i < |Catalog| ==> Catalog[i].name != OtherName
  {
  }

  /**
   * The text a grant is scored on: category, program, activity, purpose and
   * agency (absent ones as empty text) joined with spaces and lower-cased.
   */
  function CombinedText(g: RawGrant): string
  {
    Lower(Join([TextOr(g.category, ""), TextOr(g.grantProgram, ""), TextOr(g.grantActivity, ""),
                TextOr(g.purpose, ""), TextOr(g.agency, "")], ' '))
  }

  /** A category's score: how many entries of its keyword list occur in the text. */
  function KeywordScore(keywords: seq<string>, text: string): nat
  {
    CountWhere(keywords, (k: string) => Contains(text, k))
  }

  /** A keyword listed twice adds two to the score of a text containing it. */
  lemma {:induction false} RepeatedKeywordCountsTwice(keywords: seq<string>, text: string, i: nat, j: nat)
    requires i < j < |keywords| && keywords[i] == keywords[j]
    requires Contains(text, keywords[i])
    ensures KeywordScore(keywords, text) >= 2
  {
    var p := (k: string) => Contains(text, k);
    var init := keywords[..|keywords| - 1];
    if j < |keywords| - 1 {
      assert init[i] == keywords[i] && init[j] == keywords[j];
      RepeatedKeywordCountsTwice(init, text, i, j);
    } else {
      assert init[i] == keywords[i];
      CountAtLeastOne(init, p, i);
    }
  }

  /** A sequence with an element satisfying `p` counts at least one. */
  lemma {:induction false} CountAtLeastOne<T>(s: seq<T>, p: T -> bool, i: nat)
    requires i < |s| && p(s[i])
    ensures CountWhere(s, p) >= 1
  {
    if i < |s| - 1 {
      assert s[..|s| - 1][i] == s[i];
      CountAtLeastOne(s[..|s| - 1], p, i);
    }
  }

  /**
   * Technology & Innovation lists 'innovation' twice, so a text mentioning
   * innovation gives it at least two points, and its upper-case keyword 'IT'
   * never matches the lower-cased text of any grant.
   */
  lemma TechnologyKeywords(g: RawGrant)
    ensures Contains(CombinedText(g), "innovation") ==> KeywordScore(Catalog[5].keywords, CombinedText(g)) >= 2
    ensures !Contains(CombinedText(g), Catalog[5].keywords[8])
  {
    var kws := Catalog[5].keywords;
    assert kws[1] == "innovation" && kws[6] == "innovation" && kws[8] == "IT";
    if Contains(CombinedText(g), "innovation") {
      RepeatedKeywordCountsTwice(kws, CombinedText(g), 1, 6);
    }
    UpperNeverInLower(Join([TextOr(g.category, ""), TextOr(g.grantProgram, ""), TextOr(g.grantActivity, ""),
                            TextOr(g.purpose, ""), TextOr(g.agency, "")], ' '), "IT", 0);
  }

  /** The `category_scores` of a text: matching catalog entries and their scores, in catalog order. */
  function Scored(cats: seq<Category>, text: string): (r: seq<(string, nat)>)
    ensures |r| <= |cats|
  {
    if cats == [] then []
    else
      var init := Scored(cats[..|cats| - 1], text);
      var c := cats[|cats| - 1];
      var score := KeywordScore(c.keywords, text);
      if score > 0 then init + [(c.name, score)] else init
  }

  /**
   * Exactly the catalog entries with a positive score are listed, each with
   * its score.
   */
  lemma {:induction false} ScoredEntries(cats: seq<Category>, text: string)
    ensures forall e :: e in Scored(cats, text) ==>
              e.1 > 0 && exists c :: c in cats && e == (c.name, KeywordScore(c.keywords, text))
    ensures forall c :: c in cats && KeywordScore(c.keywords, text) > 0 ==>
              (c.name, KeywordScore(c.keywords, text)) in Scored(cats, text)
  {
    if cats != [] {
      var init := cats[..|cats| - 1];
      ScoredEntries(init, text);
      forall c | c in init
        ensures c in cats
      {
      }
      forall c | c in cats
        ensures c in init || c == cats[|cats| - 1]
      {
        var k :| 0 <= k < |cats| && cats[k] == c;
        if k < |cats| - 1 {
          assert init[k] == c;
        }
      }
    }
  }

  /** Position of the first highest score: what `max(scores, key=scores.get)` picks. */
  function PrimaryIndex(scores: seq<(string, nat)>): (k: nat)
    requires |scores| > 0
    ensures k < |scores|
    ensures forall j :: 0 <= j < |scores| ==> scores[j].1 <= scores[k].1
    ensures forall j :: 0 <= j < k ==> scores[j].1 < scores[k].1
  {
    if |scores| == 1 then 0
    else
      var k := PrimaryIndex(scores[..|scores| - 1]);
      if scores[|scores| - 1].1 > scores[k].1 then |scores| - 1 else k
  }

  /** The names of scored categories, in order. */
  function Names(scores: seq<(string, nat)>): (r: seq<string>)
    ensures |r| == |scores| && forall i :: 0 <= i < |scores| ==> r[i] == scores[i].0
  {
    seq(|scores|, i requires 0 <= i < |scores| => scores[i].0)
  }

  /** What categorisation adds to a grant. */
  datatype Categorization = Categorization(primary: string, all: seq<string>, scores: seq<(string, nat)>)

  /** The categorisation of a text with no matching catalog entry. */
  const OtherCategorization: Categorization := Categorization(OtherName, [OtherName], [(OtherName, 1)])

  /** The categorisation of a combined text. */
  function CategorizationOf(text: string): Categorization
  {
    var scores := Scored(Catalog, text);
    if scores == [] then OtherCategorization
    else Categorization(scores[PrimaryIndex(scores)].0, Names(scores), scores)
  }

  /**
   * The primary category is listed among all categories and carries the
   * highest score; categories listed before it score strictly less.
   */
  lemma PrimaryIsFirstHighest(text: string)
    ensures CategorizationOf(text).primary in CategorizationOf(text).all
    ensures exists k :: 0 <= k < |CategorizationOf(text).scores|
              && CategorizationOf(text).scores[k].0 == CategorizationOf(text).primary
              && (forall j :: 0 <= j < |CategorizationOf(text).scores| ==>
                    CategorizationOf(text).scores[j].1 <= CategorizationOf(text).scores[k].1)
              && (forall j :: 0 <= j < k ==> CategorizationOf(text).scores[j].1 < CategorizationOf(text).scores[k].1)
  {
    var c := CategorizationOf(text);
    if Scored(Catalog, text) == [] {
      assert c.scores[0].0 == c.primary;
    } else {
      var k := PrimaryIndex(c.scores);
      assert c.all[k] == c.primary;
    }
  }

  /** The fallback is used exactly when no catalog entry scores. */
  lemma NoMatchIsOther(text: string)
    ensures CategorizationOf(text) == OtherCategorization <==>
              forall i :: 0 <= i < |Catalog| ==> KeywordScore(Catalog[i].keywords, text) == 0
  {
    ScoredEntries(Catalog, text);
    CatalogNames();
    var scores := Scored(Catalog, text);
    if !forall i :: 0 <= i < |Catalog| ==> KeywordScore(Catalog[i].keywords, text) == 0 {
      var i :| 0 <= i < |Catalog| && KeywordScore(Catalog[i].keywords, text) != 0;
      assert Catalog[i] in Catalog;
      assert scores != [];
      var k := PrimaryIndex(scores);
      assert scores[k] in scores;
      var c :| c in Catalog && scores[k] == (c.name, KeywordScore(c.keywords, text));
      assert CategorizationOf(text).primary == c.name;
    }
  }

  /** In a list of categories with distinct names, a category is named among the scored ones exactly when it scores. */
  lemma ScoredNames(cats: seq<Category>, text: string, i: nat)
    requires forall a, b :: 0 <= a < b < |cats| ==> cats[a].name != cats[b].name
    requires i < |cats|
    ensures cats[i].name in Names(Scored(cats, text)) <==> KeywordScore(cats[i].keywords, text) > 0
  {
    ScoredEntries(cats, text);
    var scores := Scored(cats, text);
    var names := Names(scores);
    assert cats[i] in cats;
    if KeywordScore(cats[i].keywords, text) > 0 {
      var k :| 0 <= k < |scores| && scores[k] == (cats[i].name, KeywordScore(cats[i].keywords, text));
      assert names[k] == cats[i].name;
    }
    if cats[i].name in names {
      var k :| 0 <= k < |names| && names[k] == cats[i].name;
      assert scores[k] in scores;
      var c :| c in cats && scores[k] == (c.name, KeywordScore(c.keywords, text));
      var j :| 0 <= j < |cats| && cats[j] == c;
      assert j == i;
    }
  }

  /** A catalog category is listed exactly when it scores. */
  lemma MatchedCategories(text: string, i: nat)
    requires i < |Catalog|
    ensures Catalog[i].name in CategorizationOf(text).all <==> KeywordScore(Catalog[i].keywords, text) > 0
  {
    CatalogNames();
    ScoredNames(Catalog, text, i);
  }

  /** `categorize_grant`: score every catalog entry keyword by keyword and pick the primary. */
  method CategorizeGrant(g: RawGrant) returns (c: Categorization)
    ensures c == CategorizationOf(CombinedText(g))
  {
    var text := CombinedText(g);
    var scores := ScoreCategories(Catalog, text);
    if scores == [] {
      c := OtherCategorization;
    } else {
      var k := PrimaryIndex(scores);
      c := Categorization(scores[k].0, Names(scores), scores);
    }
  }

  /** The outer loop of `categorize_grant`: each category with a positive score, in catalog order. */
  method ScoreCategories(cats: seq<Category>, text: string) returns (scores: seq<(string, nat)>)
    ensures scores == Scored(cats, text)
  {
    scores := [];
    var i := 0;
    while i < |cats|
      invariant 0 <= i <= |cats|
      invariant scores == Scored(cats[..i], text)
    {
      var score := CountKeywords(cats[i].keywords, text);
      assert cats[..i + 1][..i] == cats[..i];
      if score > 0 {
        scores := scores + [(cats[i].name, score)];
      }
      i := i + 1;
    }
    assert cats[..i] == cats;
  }

  /** The inner loop of `categorize_grant`: one point per keyword found in the text. */
  method CountKeywords(keywords: seq<string>, text: string) returns (score: nat)
    ensures score == KeywordScore(keywords, text)
  {
    score := 0;
    var j := 0;
    while j < |keywords|
      invariant 0 <= j <= |keywords|
      invariant score == KeywordScore(keywords[..j], text)
    {
      assert keywords[..j + 1][..j] == keywords[..j];
      if Contains(text, keywords[j]) {
        score := score + 1;
      }
      j := j + 1;
    }
    assert keywords[..j] == keywords;
  }

  /** The style of a category name: the catalog entry with that name, if any. */
  function LookupCategory(cats: seq<Category>, name: string): (r: Option<Category>)
    ensures r.Some? ==> r.value in cats && r.value.name == name
    ensures r.None? <==> forall c :: c in cats ==> c.name != name
  {
    if cats == [] then None
    else if cats[0].name == name then Some(cats[0])
    else LookupCategory(cats[1..], name)
  }

  // ---------------------------------------------------------------------
  // Size bands
  // ---------------------------------------------------------------------

  /** The funding-size bands. */
  datatype Size = Unknown | Small | Medium | Large | Major

  /** The band's name as stored in `size_category`. */
  function SizeName(s: Size): string
  {
    match s
    case Unknown => "Unknown"
    case Small => "Small"
    case Medium => "Medium"
    case Large => "Large"
    case Major => "Major"
  }

  /** Bands in increasing order of funding. */
  function Rank(s: Size): nat
  {
    match s
    case Unknown => 0
    case Small => 1
    case Medium => 2
    case Large => 3
    case Major => 4
  }

  /** `determine_grant_size`: a zero amount is Unknown, then the 50k/500k/5M thresholds. */
  function GrantSize(value: real): (s: Size)
    ensures s == Unknown <==> value == 0.0
  {
    if value == 0.0 then Unknown
    else if value < 50000.0 then Small
    else if value < 500000.0 then Medium
    else if value < 5000000.0 then Large
    else Major
  }

  /** A larger positive amount never falls in a lower band. */
  lemma SizeMonotone(a: real, b: real)
    requires 0.0 < a <= b
    ensures Rank(GrantSize(a)) <= Rank(GrantSize(b))
  {
  }

  // ---------------------------------------------------------------------
  // Coordinates
  // ---------------------------------------------------------------------

  /** A point on the map and the place it stands for. */
  datatype Location = Location(lat: real, lng: real, city: string, state: string)

  /** The postcodes with known coordinates. */
  const PostcodeTable: map<string, Location> := map[
    "5000" := Location(-34.9285, 138.6007, "Adelaide", "SA"),
    "3000" := Location(-37.8136, 144.9631, "Melbourne", "VIC"),
    "2000" := Location(-33.8688, 151.2093, "Sydney", "NSW"),
    "4000" := Location(-27.4698, 153.0251, "Brisbane", "QLD"),
    "6000" := Location(-31.9505, 115.8605, "Perth", "WA"),
    "7000" := Location(-42.8821, 147.3272, "Hobart", "TAS"),
    "0800" := Location(-12.4634, 130.8456, "Darwin", "NT"),
    "2600" := Location(-35.2809, 149.1300, "Canberra", "ACT")
  ]

  /** Approximate centre of each state or territory. */
  const StateCentres: map<string, (real, real)> := map[
    "NSW" := (-32.0, 147.0),
    "VIC" := (-37.0, 144.0),
    "QLD" := (-22.0, 144.0),
    "SA" := (-30.0, 135.0),
    "WA" := (-25.0, 122.0),
    "TAS" := (-42.0, 147.0),
    "NT" := (-19.0, 133.0),
    "ACT" := (-35.3, 149.1)
  ]

  /** The centre of Australia, used when nothing else is known. */
  const AustraliaCentre: Location := Location(-25.0, 133.0, "Unknown", "Unknown")

  /** `get_coordinates`: the known postcode, else the state centre, else the centre of Australia. */
  function GetCoordinates(postcode: Option<string>, state: Option<string>): (r: Location)
    ensures postcode.Some? && postcode.value in PostcodeTable ==> r == PostcodeTable[postcode.value]
    ensures !(postcode.Some? && postcode.value in PostcodeTable) && Present(state) && state.value in StateCentres ==>
              r.city == "Unknown" && r.state == state.value
              && (r.lat, r.lng) == StateCentres[state.value]
    ensures !(postcode.Some? && postcode.value in PostcodeTable) && !(Present(state) && state.value in StateCentres) ==>
              r == AustraliaCentre
  {
    if postcode.Some? && postcode.value in PostcodeTable then PostcodeTable[postcode.value]
    else if Present(state) && state.value in StateCentres then
      var centre := StateCentres[state.value];
      Location(centre.0, centre.1, "Unknown", state.value)
    else AustraliaCentre
  }

  /**
   * The mapped state is always a state with a known centre or 'Unknown', and
   * a named city comes only from a known postcode.
   */
  lemma MappedPlaceKnown(postcode: Option<string>, state: Option<string>)
    ensures GetCoordinates(postcode, state).state in StateCentres || GetCoordinates(postcode, state).state == "Unknown"
    ensures GetCoordinates(postcode, state).city != "Unknown" ==> postcode.Some? && postcode.value in PostcodeTable
  {
    if postcode.Some? && postcode.value in PostcodeTable {
      var p := postcode.value;
      assert p == "5000" || p == "3000" || p == "2000" || p == "4000" || p == "6000" || p == "7000" || p == "0800" || p == "2600";
    }
  }

  // ---------------------------------------------------------------------
  // Processing
  // ---------------------------------------------------------------------

  /** Python's `a or b` on optional texts: the first when it is present, else the second as it is. */
  function FirstPresent(a: Option<string>, b: Option<string>): (r: Option<string>)
    ensures Present(r) <==> Present(a) || Present(b)
    ensures Present(a) ==> r == a
  {
    if Present(a) then a else b
  }

  /**
   * The `<field>_parsed` value of a date: only a present date with '-' that
   * splits into three pieces is handed to the `%d-%b-%Y` parser, and a
   * parser refusal leaves the field out.
   */
  function ParsedDate(d: Option<string>, parse: string -> Option<string>): (r: Option<string>)
    ensures r.Some? ==> Present(d) && |Split(d.value, '-')| == 3 && r == parse(d.value)
  {
    if Present(d) && '-' in d.value && |Split(d.value, '-')| == 3 then parse(d.value) else None
  }

  /** The map colour and icon of a category. */
  datatype Style = Style(color: string, icon: string)

  /** A loaded grant with what processing adds to it. */
  datatype ProcessedGrant = ProcessedGrant(
    source: RawGrant,
    categorization: Categorization,
    size: Size,
    location: Option<Location>,
    style: Option<Style>,
    processedAt: string,
    approvalParsed: Option<string>,
    publishParsed: Option<string>)

  /** A grant processed with a given categorisation. */
  function ProcessedWith(g: RawGrant, c: Categorization, now: string, parse: string -> Option<string>): ProcessedGrant
  {
    var entry := LookupCategory(Catalog, c.primary);
    ProcessedGrant(
      g, c, GrantSize(ValueOr0(g.value)), PlaceOf(g),
      if entry.Some? then Some(Style(entry.value.color, entry.value.icon)) else None,
      now, ParsedDate(g.approvalDate, parse), ParsedDate(g.publishDate, parse))
  }

  /** The coordinates of a grant's recipient (else delivery) postcode and state, when either is present. */
  function PlaceOf(g: RawGrant): Option<Location>
  {
    var postcode := FirstPresent(g.recipientPostcode, g.deliveryPostcode);
    var state := FirstPresent(g.recipientState, g.deliveryState);
    if Present(postcode) || Present(state) then Some(GetCoordinates(postcode, state)) else None
  }

  /** One iteration of `process_grants`. */
  function ProcessGrant(g: RawGrant, now: string, parse: string -> Option<string>): ProcessedGrant
  {
    ProcessedWith(g, CategorizationOf(CombinedText(g)), now, parse)
  }

  /**
   * A processed record keeps the loaded grant and is located exactly when
   * some postcode or state is present; the recipient's postcode and state
   * take precedence over the delivery ones.
   */
  lemma ProcessedLocation(g: RawGrant, c: Categorization, now: string, parse: string -> Option<string>)
    ensures ProcessedWith(g, c, now, parse).source == g && ProcessedWith(g, c, now, parse).processedAt == now
    ensures ProcessedWith(g, c, now, parse).location.Some? <==>
              Present(g.recipientPostcode) || Present(g.deliveryPostcode) || Present(g.recipientState) || Present(g.deliveryState)
    ensures Present(g.recipientPostcode) && g.recipientPostcode.value in PostcodeTable ==>
              ProcessedWith(g, c, now, parse).location == Some(PostcodeTable[g.recipientPostcode.value])
    ensures Present(g.recipientState) && g.recipientState.value in StateCentres
            && ProcessedWith(g, c, now, parse).location.Some?
            && ProcessedWith(g, c, now, parse).location.value.city == "Unknown" ==>
              ProcessedWith(g, c, now, parse).location.value.state == g.recipientState.value
  {
    var r := ProcessedWith(g, c, now, parse);
    assert r.source == g && r.processedAt == now && r.location == PlaceOf(g);
    PlaceOfFacts(g);
  }

  lemma PlaceOfFacts(g: RawGrant)
    ensures PlaceOf(g).Some? <==>
              Present(g.recipientPostcode) || Present(g.deliveryPostcode) || Present(g.recipientState) || Present(g.deliveryState)
    ensures Present(g.recipientPostcode) && g.recipientPostcode.value in PostcodeTable ==>
              PlaceOf(g) == Some(PostcodeTable[g.recipientPostcode.value])
    ensures Present(g.recipientState) && g.recipientState.value in StateCentres
            && PlaceOf(g).Some? && PlaceOf(g).value.city == "Unknown" ==>
              PlaceOf(g).value.state == g.recipientState.value
  {
    var postcode := FirstPresent(g.recipientPostcode, g.deliveryPostcode);
    var state := FirstPresent(g.recipientState, g.deliveryState);
    if Present(postcode) || Present(state) {
      MappedPlaceKnown(postcode, state);
    }
  }

  /** A non-fallback primary category is a catalog category. */
  lemma PrimaryInCatalog(text: string)
    ensures CategorizationOf(text).primary != OtherName ==>
              exists e :: e in Catalog && e.name == CategorizationOf(text).primary
  {
    var scores := Scored(Catalog, text);
    if scores != [] {
      ScoredEntries(Catalog, text);
      var k := PrimaryIndex(scores);
      assert scores[k] in scores;
    }
  }

  /** A processed grant has a style exactly when its primary category is not the fallback. */
  lemma ProcessedStyle(g: RawGrant, now: string, parse: string -> Option<string>)
    ensures ProcessGrant(g, now, parse).style.Some? <==> ProcessGrant(g, now, parse).categorization.primary != OtherName
  {
    var c := CategorizationOf(CombinedText(g));
    CatalogNames();
    PrimaryInCatalog(CombinedText(g));
  }

  // ---------------------------------------------------------------------
  // Mapping data
  // ---------------------------------------------------------------------

  /** The `location` of a map entry; its postcode is the recipient's, whichever was used to locate. */
  datatype MapLocation = MapLocation(
    lat: Option<real>, lng: Option<real>, city: Option<string>, state: Option<string>, postcode: Option<string>)

  /** One entry of the map's `grants` list. */
  datatype MappingGrant = MappingGrant(
    id: Option<string>,
    title: string,
    description: string,
    value: real,
    agency: string,
    recipient: string,
    location: MapLocation,
    primary: string,
    all: seq<string>,
    style: Option<Style>,
    size: Size,
    approval: Option<string>,
    publish: Option<string>,
    term: Option<string>,
    program: string,
    url: string)

  /** The grant page of the public register. */
  const GrantPageBase: string := "https://www.grants.gov.au/Ga/Show/"

  /** The map entry of a processed grant. */
  function MappingGrantOf(p: ProcessedGrant): (m: MappingGrant)
    ensures m.location.lat.Some? <==> p.location.Some?
    ensures m.location.postcode == p.source.recipientPostcode
    ensures GrantPageBase <= m.url
  {
    var g := p.source;
    var loc := if p.location.Some?
      then MapLocation(Some(p.location.value.lat), Some(p.location.value.lng),
                       Some(p.location.value.city), Some(p.location.value.state), g.recipientPostcode)
      else MapLocation(None, None, None, None, g.recipientPostcode);
    MappingGrant(
      g.gaId, TextOr(g.grantActivity, "Unknown Grant"), TextOr(g.purpose, ""), ValueOr0(g.value),
      TextOr(g.agency, "Unknown Agency"), TextOr(g.recipientName, "Unknown Recipient"), loc,
      p.categorization.primary, p.categorization.all, p.style, p.size,
      g.approvalDate, g.publishDate, g.grantTerm, TextOr(g.grantProgram, ""),
      GrantPageBase + TextOr(g.gaId, ""))
  }

  /** The map entries of processed grants, in order. */
  function MappingGrants(ps: seq<ProcessedGrant>): seq<MappingGrant>
  {
    if ps == [] then [] else MappingGrants(ps[..|ps| - 1]) + [MappingGrantOf(ps[|ps| - 1])]
  }

  lemma {:induction false} MappingGrantsAt(ps: seq<ProcessedGrant>)
    ensures |MappingGrants(ps)| == |ps|
    ensures forall i :: 0 <= i < |ps| ==> MappingGrants(ps)[i] == MappingGrantOf(ps[i])
  {
    if ps != [] {
      MappingGrantsAt(ps[..|ps| - 1]);
    }
  }

  lemma MappingGrantsStep(ps: seq<ProcessedGrant>, i: nat)
    requires i < |ps|
    ensures MappingGrants(ps[..i + 1]) == MappingGrants(ps[..i]) + [MappingGrantOf(ps[i])]
  {
    assert ps[..i + 1][..i] == ps[..i];
  }

  /** The key a grant is counted under in `categories`. */
  function PrimaryKey(p: ProcessedGrant): string
  {
    p.categorization.primary
  }

  /** The key a grant is counted under in `states`: its mapped state, 'Unknown' when unlocated. */
  function StateKey(p: ProcessedGrant): string
  {
    if p.location.Some? then p.location.value.state else "Unknown"
  }

  /** The key a grant is counted under in `size_distribution`. */
  function SizeKey(p: ProcessedGrant): string
  {
    SizeName(p.size)
  }

  /** `sum(g.get('value_aud', 0) for g in grants)`. */
  function TotalValue(ps: seq<ProcessedGrant>): real
  {
    if ps == [] then 0.0 else TotalValue(ps[..|ps| - 1]) + ValueOr0(ps[|ps| - 1].source.value)
  }

  /** One map entry per grant, and each summary distribution adds up to the number of grants. */
  lemma SummaryTotals(ps: seq<ProcessedGrant>)
    ensures |MappingGrants(ps)| == |ps|
    ensures forall i :: 0 <= i < |ps| ==> MappingGrants(ps)[i] == MappingGrantOf(ps[i])
    ensures MapSum(Tally(ps, PrimaryKey)) == |ps|
    ensures MapSum(Tally(ps, StateKey)) == |ps|
    ensures MapSum(Tally(ps, SizeKey)) == |ps|
  {
    MappingGrantsAt(ps);
    TallyTotal(ps, PrimaryKey);
    TallyTotal(ps, StateKey);
    TallyTotal(ps, SizeKey);
  }

  /** The `summary` of the mapping data. */
  datatype MappingSummary = MappingSummary(
    totalGrants: nat,
    totalValue: real,
    categories: map<string, nat>,
    states: map<string, nat>,
    sizes: map<string, nat>)

  /** The mapping data: one entry per processed grant and the summary. */
  datatype MappingData = MappingData(grants: seq<MappingGrant>, summary: MappingSummary)

  /** The distributions of the summary report. */
  datatype SummaryReport = SummaryReport(
    totalGrants: nat,
    totalValue: real,
    average: real,
    categories: map<string, nat>,
    states: map<string, nat>,
    sizes: map<string, nat>)

  /** One turn of the `process_grants` loop: categorise the grant, then add size, place, style, time and dates. */
  method ProcessOne(g: RawGrant, now: string, parse: string -> Option<string>) returns (p: ProcessedGrant)
    ensures p == ProcessGrant(g, now, parse)
  {
    var c := CategorizeGrant(g);
    p := ProcessedWith(g, c, now, parse);
  }

  /** The processor object: the loaded grants and the result of the last processing run. */
  class GrantDataProcessor {
    var grantsData: seq<RawGrant>
    var processedData: seq<ProcessedGrant>

    constructor()
      ensures grantsData == [] && processedData == []
    {
      grantsData := [];
      processedData := [];
    }

    /** `load_data_from_file` once the file has been read: the records replace the loaded grants. */
    method LoadData(records: seq<RawGrant>)
      modifies this
      ensures grantsData == records && processedData == old(processedData)
    {
      grantsData := records;
    }

    /**
     * `process_grants`: every loaded grant, in order, becomes one processed
     * record, stamped with the clock reading of its iteration; the result
     * replaces `processed_data`.
     */
    method ProcessGrants(clock: nat -> string, parse: string -> Option<string>) returns (r: seq<ProcessedGrant>)
      modifies this
      ensures grantsData == old(grantsData)
      ensures |r| == |grantsData|
      ensures forall i :: 0 <= i < |r| ==> r[i] == ProcessGrant(grantsData[i], clock(i), parse)
      ensures processedData == r
    {
      ghost var step := (g: RawGrant, k: nat) => ProcessGrant(g, clock(k), parse);
      var processed: seq<ProcessedGrant> := [];
      var i: nat := 0;
      while i < |grantsData|
        invariant i <= |grantsData|
        invariant unchanged(this)
        invariant processed == StepPrefix(grantsData, step, i)
      {
        var next := ProcessOne(grantsData[i], clock(i), parse);
        processed := processed + [next];
        i := i + 1;
      }
      StepPrefixAt(grantsData, step, i);
      processedData := processed;
      r := processed;
    }

    /**
     * `generate_mapping_data`: one map entry per processed grant, in order,
     * and summary counters that each add up to the number of grants.
     */
    method GenerateMappingData() returns (d: MappingData)
      ensures |d.grants| == |processedData|
      ensures forall i :: 0 <= i < |d.grants| ==> d.grants[i] == MappingGrantOf(processedData[i])
      ensures d.summary.totalGrants == |processedData| && d.summary.totalValue == TotalValue(processedData)
      ensures d.summary.categories == Tally(processedData, PrimaryKey)
      ensures d.summary.states == Tally(processedData, StateKey)
      ensures d.summary.sizes == Tally(processedData, SizeKey)
      ensures MapSum(d.summary.categories) == d.summary.totalGrants
      ensures MapSum(d.summary.states) == d.summary.totalGrants
      ensures MapSum(d.summary.sizes) == d.summary.totalGrants
    {
      var ps := processedData;
      var grants: seq<MappingGrant> := [];
      var total := TotalValue(ps);
      var categories: map<string, nat> := map[];
      var states: map<string, nat> := map[];
      var sizes: map<string, nat> := map[];
      var i := 0;
      while i < |ps|
        invariant 0 <= i <= |ps|
        invariant grants == MappingGrants(ps[..i])
        invariant categories == Tally(ps[..i], PrimaryKey)
        invariant states == Tally(ps[..i], StateKey)
        invariant sizes == Tally(ps[..i], SizeKey)
      {
        MappingGrantsStep(ps, i);
        grants := grants + [MappingGrantOf(ps[i])];
        categories := CountNext(ps, PrimaryKey, i, categories);
        states := CountNext(ps, StateKey, i, states);
        sizes := CountNext(ps, SizeKey, i, sizes);
        i := i + 1;
      }
      assert ps[..i] == ps;
      SummaryTotals(ps);
      d := MappingData(grants, MappingSummary(|ps|, total, categories, states, sizes));
    }

    /**
     * `generate_summary_report` without its text layout: nothing for no
     * data, else the totals, the average and the same three distributions
     * as the mapping summary.
     */
    method GenerateSummaryReport() returns (r: Option<SummaryReport>)
      ensures r.None? <==> processedData == []
      ensures r.Some? ==> r.value.totalGrants == |processedData| && r.value.totalValue == TotalValue(processedData)
      ensures r.Some? ==> r.value.average * (r.value.totalGrants as real) == r.value.totalValue
      ensures r.Some? ==> r.value.categories == Tally(processedData, PrimaryKey)
                          && r.value.states == Tally(processedData, StateKey)
                          && r.value.sizes == Tally(processedData, SizeKey)
    {
      var ps := processedData;
      if ps == [] {
        return None;
      }
      var total := TotalValue(ps);
      var categories := CountBy(ps, PrimaryKey);
      var states := CountBy(ps, StateKey);
      var sizes := CountBy(ps, SizeKey);
      var n := |ps| as real;
      r := Some(SummaryReport(|ps|, total, total / n, categories, states, sizes));
    }
  }
}

/**
 * The data side of `grant_scraper.py`: combining the fields scraped from a
 * grant decision page and a grant award page into one record with keyword
 * categories and a size band, flattening the records into CSV rows, and
 * the summary statistics of a scrape. Fetching and parsing the pages is not
 * part of this model; the scraped fields are its input.
 */
module GrantScraper {
  import opened Common
  import opened Text
  import GrantDataProcessor

  /** A scraped field value: a missing page field is scraped as `None`. */
  datatype Value = Null | Text(s: string) | Number(n: real) | List(items: seq<string>)

  /** A scraped grant record. */
  type Record = map<string, Value>

  // ---------------------------------------------------------------------
  // Categories
  // ---------------------------------------------------------------------

  /** The scraper's category keywords, in the insertion order of its dictionary. */
  const ScraperCatalog: seq<(string, seq<string>)> := [
    ("Health & Social Services", ["health", "social", "medical", "disability", "aged care", "mental health"]),
    ("Education & Training", ["education", "training", "school", "university", "research", "student"]),
    ("Infrastructure & Development", ["infrastructure", "construction", "development", "transport", "roads"]),
    ("Environment & Sustainability", ["environment", "sustainability", "climate", "renewable", "conservation"]),
    ("Arts & Culture", ["arts", "culture", "creative", "heritage", "museum", "festival"]),
    ("Technology & Innovation", ["technology", "innovation", "digital", "tech", "startup", "research"]),
    ("Community Services", ["community", "volunteer", "local", "neighbourhood", "civic"]),
    ("Emergency & Safety", ["emergency", "disaster", "safety", "security", "fire", "flood"])
  ]

  /** Catalog names are distinct and none of them is 'Other'. */
  lemma ScraperCatalogNames()
    ensures forall i, j :: 0 <= i < j < |ScraperCatalog| ==> ScraperCatalog[i].0 != ScraperCatalog[j].0
    ensures forall i :: 0 <= i < |ScraperCatalog| ==> ScraperCatalog[i].0 != "Other"
  {
  }

  /** The four fields the categoriser reads. */
  const CategorizedFields: seq<string> := ["category", "grant_program", "grant_activity", "purpose"]

  /**
   * `grant_data.get(key, '')` handed to `' '.join`, as written: an absent
   * key gives empty text, a text value itself, and any other value (the
   * `None` of a field missing from the page) makes the join raise.
   */
  function FieldAsWritten(r: Record, key: string): Option<string>
  {
    if key !in r then Some("")
    else if r[key].Text? then Some(r[key].s)
    else None
  }

  /** The combined text as written: `None` where `' '.join` raises. */
  function ScrapedTextAsWritten(r: Record): (t: Option<string>)
    ensures t.None? <==> exists k :: k in CategorizedFields && FieldAsWritten(r, k).None?
  {
    var a := FieldAsWritten(r, "category");
    var b := FieldAsWritten(r, "grant_program");
    var c := FieldAsWritten(r, "grant_activity");
    var d := FieldAsWritten(r, "purpose");
    assert CategorizedFields[0] == "category" && CategorizedFields[1] == "grant_program";
    assert CategorizedFields[2] == "grant_activity" && CategorizedFields[3] == "purpose";
    if a.Some? && b.Some? && c.Some? && d.Some? then
      Some(Lower(Join([a.value, b.value, c.value, d.value], ' ')))
    else None
  }

  /** A field as text, an absent or non-text value counting as empty text. */
  function FieldText(r: Record, key: string): (t: string)
    ensures FieldAsWritten(r, key).Some? ==> t == FieldAsWritten(r, key).value
  {
    if key in r && r[key].Text? then r[key].s else ""
  }

  /** The text a scraped record is categorised on: the four fields joined with spaces, lower-cased. */
  function ScrapedText(r: Record): string
  {
    Lower(Join([FieldText(r, "category"), FieldText(r, "grant_program"),
                FieldText(r, "grant_activity"), FieldText(r, "purpose")], ' '))
  }

  /**
   * An award page without a 'Category:' row is scraped as a `None` category,
   * and categorising it as written raises; the corrected text reads the
   * missing field as empty, and agrees with the written one wherever that
   * one does not raise.
   */
  lemma MissingFieldRaises(r: Record)
    ensures ScrapedTextAsWritten(map["category" := Null]).None?
    ensures ScrapedTextAsWritten(r).Some? ==> ScrapedTextAsWritten(r).value == ScrapedText(r)
  {
    assert "category" in CategorizedFields;
  }

  /** `any(keyword in text for keyword in keywords)`. */
  predicate AnyKeyword(keywords: seq<string>, text: string)
  {
    exists k :: k in keywords && Contains(text, k)
  }

  /** The names of the catalog entries with a keyword in the text, in catalog order. */
  function MatchedNames(cats: seq<(string, seq<string>)>, text: string): seq<string>
  {
    if cats == [] then []
    else
      var init := MatchedNames(cats[..|cats| - 1], text);
      var c := cats[|cats| - 1];
      if AnyKeyword(c.1, text) then init + [c.0] else init
  }

  /** `categorize_grant` on a text: the matched names, or ['Other'] when none matches. */
  function ScrapedCategories(text: string): seq<string>
  {
    CategoriesIn(ScraperCatalog, text)
  }

  /** The matched names of a catalog, or ['Other'] when none matches. */
  function CategoriesIn(cats: seq<(string, seq<string>)>, text: string): seq<string>
  {
    var names := MatchedNames(cats, text);
    if names == [] then ["Other"] else names
  }

  /** Every matched name names a catalog entry. */
  lemma {:induction false} MatchedNamesFromCatalog(cats: seq<(string, seq<string>)>, text: string)
    ensures forall n :: n in MatchedNames(cats, text) ==> exists i :: 0 <= i < |cats| && cats[i].0 == n
  {
    if cats != [] {
      var init := cats[..|cats| - 1];
      MatchedNamesFromCatalog(init, text);
      forall n | n in MatchedNames(cats, text)
        ensures exists i :: 0 <= i < |cats| && cats[i].0 == n
      {
        if n in MatchedNames(init, text) {
          var k :| 0 <= k < |init| && init[k].0 == n;
          assert cats[k].0 == n;
        } else {
          assert cats[|cats| - 1].0 == n;
        }
      }
    }
  }

  /** In a catalog with distinct names, an entry's name is matched exactly when one of its keywords occurs. */
  lemma {:induction false} MatchedNamesMember(cats: seq<(string, seq<string>)>, text: string)
    requires forall i, j :: 0 <= i < j < |cats| ==> cats[i].0 != cats[j].0
    ensures forall i :: 0 <= i < |cats| ==> (cats[i].0 in MatchedNames(cats, text) <==> AnyKeyword(cats[i].1, text))
  {
    if cats != [] {
      var init := cats[..|cats| - 1];
      var last := cats[|cats| - 1];
      MatchedNamesMember(init, text);
      MatchedNamesFromCatalog(init, text);
      var before := MatchedNames(init, text);
      forall i | 0 <= i < |cats| - 1
        ensures cats[i].0 in MatchedNames(cats, text) <==> AnyKeyword(cats[i].1, text)
      {
        assert init[i] == cats[i];
      }
    }
  }

  /** `x` names an earlier catalog entry than `y`. */
  predicate NamedBefore(cats: seq<(string, seq<string>)>, x: string, y: string)
  {
    exists i, j :: 0 <= i < j < |cats| && cats[i].0 == x && cats[j].0 == y
  }

  /** Names listed in the order of their entries in a catalog. */
  predicate InCatalogOrder(names: seq<string>, cats: seq<(string, seq<string>)>)
  {
    forall a, b :: 0 <= a < b < |names| ==> NamedBefore(cats, names[a], names[b])
  }

  /** Names in the order of a catalog with distinct names are themselves distinct. */
  lemma OrderedNamesDistinct(names: seq<string>, cats: seq<(string, seq<string>)>)
    requires forall i, j :: 0 <= i < j < |cats| ==> cats[i].0 != cats[j].0
    requires InCatalogOrder(names, cats)
    ensures forall a, b :: 0 <= a < b < |names| ==> names[a] != names[b]
  {
    forall a, b | 0 <= a < b < |names|
      ensures names[a] != names[b]
    {
      assert NamedBefore(cats, names[a], names[b]);
      var i, j :| 0 <= i < j < |cats| && cats[i].0 == names[a] && cats[j].0 == names[b];
    }
  }

  /** Matched names keep catalog order. */
  lemma {:induction false} MatchedNamesOrder(cats: seq<(string, seq<string>)>, text: string)
    ensures InCatalogOrder(MatchedNames(cats, text), cats)
  {
    if cats != [] {
      var init := cats[..|cats| - 1];
      var last := cats[|cats| - 1];
      MatchedNamesOrder(init, text);
      MatchedNamesFromCatalog(init, text);
      var before := MatchedNames(init, text);
      var names := MatchedNames(cats, text);
      assert names == if AnyKeyword(last.1, text) then before + [last.0] else before;
      forall a, b | 0 <= a < b < |names|
        ensures NamedBefore(cats, names[a], names[b])
      {
        assert names[a] == before[a];
        if b < |before| {
          assert names[b] == before[b];
          NamedBeforeExtends(init, last, before[a], before[b]);
          assert init + [last] == cats;
        } else {
          assert names[b] == last.0;
          assert before[a] in before;
          var i :| 0 <= i < |init| && init[i].0 == before[a];
          assert cats[i].0 == names[a] && cats[|cats| - 1].0 == names[b];
        }
      }
    }
  }

  /** Order in a catalog survives adding an entry at its end. */
  lemma NamedBeforeExtends(init: seq<(string, seq<string>)>, last: (string, seq<string>), x: string, y: string)
    requires NamedBefore(init, x, y)
    ensures NamedBefore(init + [last], x, y)
  {
    var i, j :| 0 <= i < j < |init| && init[i].0 == x && init[j].0 == y;
    assert (init + [last])[i] == init[i] && (init + [last])[j] == init[j];
  }

  /**
   * The categories of a text are the matching catalog entries, each once and
   * in catalog order, or exactly ['Other'] when none matches.
   */
  lemma ScrapedCategoriesFacts(text: string)
    ensures ScrapedCategories(text) == ["Other"] <==> forall i :: 0 <= i < |ScraperCatalog| ==> !AnyKeyword(ScraperCatalog[i].1, text)
    ensures forall i :: 0 <= i < |ScraperCatalog| ==>
              (ScraperCatalog[i].0 in ScrapedCategories(text) <==> AnyKeyword(ScraperCatalog[i].1, text))
    ensures forall a, b :: 0 <= a < b < |ScrapedCategories(text)| ==> ScrapedCategories(text)[a] != ScrapedCategories(text)[b]
  {
    ScraperCatalogNames();
    MatchedNamesFromCatalog(ScraperCatalog, text);
    MatchedNamesMember(ScraperCatalog, text);
    MatchedNamesOrder(ScraperCatalog, text);
    var names := MatchedNames(ScraperCatalog, text);
    if names != [] {
      var n := names[0];
      assert n in names;
      var i :| 0 <= i < |ScraperCatalog| && ScraperCatalog[i].0 == n;
      assert AnyKeyword(ScraperCatalog[i].1, text);
    } else {
      forall i | 0 <= i < |ScraperCatalog|
        ensures !AnyKeyword(ScraperCatalog[i].1, text)
      {
        assert ScraperCatalog[i].0 !in names;
      }
    }
    OrderedNamesDistinct(names, ScraperCatalog);
  }

  /** `categorize_grant`: test each catalog entry's keywords until one occurs. */
  method CategorizeScraped(r: Record) returns (categories: seq<string>)
    ensures categories == ScrapedCategories(ScrapedText(r))
  {
    categories := CategorizeWith(ScraperCatalog, r);
  }

  /** `categorize_grant` over a given catalog. */
  method CategorizeWith(cats: seq<(string, seq<string>)>, r: Record) returns (categories: seq<string>)
    ensures categories == CategoriesIn(cats, ScrapedText(r))
  {
    var text := ScrapedText(r);
    categories := MatchCatalog(cats, text);
    if categories == [] {
      categories := ["Other"];
    }
  }

  /** The outer loop of `categorize_grant`: the names of the entries with a keyword in the text. */
  method MatchCatalog(cats: seq<(string, seq<string>)>, text: string) returns (names: seq<string>)
    ensures names == MatchedNames(cats, text)
  {
    names := [];
    var i := 0;
    while i < |cats|
      invariant 0 <= i <= |cats|
      invariant names == MatchedNames(cats[..i], text)
    {
      var found := HasKeyword(cats[i].1, text);
      assert cats[..i + 1][..i] == cats[..i];
      if found {
        names := names + [cats[i].0];
      }
      i := i + 1;
    }
    assert cats[..i] == cats;
  }

  /** The inner loop of `categorize_grant`: stop at the first keyword that occurs. */
  method HasKeyword(keywords: seq<string>, text: string) returns (found: bool)
    ensures found <==> AnyKeyword(keywords, text)
  {
    found := false;
    var j := 0;
    while j < |keywords| && !found
      invariant 0 <= j <= |keywords|
      invariant found <==> AnyKeyword(keywords[..j], text)
    {
      assert keywords[..j + 1] == keywords[..j] + [keywords[j]];
      found := Contains(text, keywords[j]);
      j := j + 1;
    }
    if found {
      var k :| k in keywords[..j] && Contains(text, k);
      assert k in keywords;
    } else {
      assert keywords[..j] == keywords;
    }
  }

  // ---------------------------------------------------------------------
  // Size band
  // ---------------------------------------------------------------------

  /**
   * The scraper's `determine_grant_size`: no amount or a zero amount is
   * Unknown; any other amount falls in the same bands as the processor's.
   */
  function ScrapedSize(value: Option<real>): (s: GrantDataProcessor.Size)
    ensures s == GrantDataProcessor.Unknown <==> value.None? || value.value == 0.0
    ensures value.Some? ==> s == GrantDataProcessor.GrantSize(value.value)
  {
    if value.None? || value.value == 0.0 then GrantDataProcessor.Unknown
    else if value.value < 50000.0 then GrantDataProcessor.Small
    else if value.value < 500000.0 then GrantDataProcessor.Medium
    else if value.value < 5000000.0 then GrantDataProcessor.Large
    else GrantDataProcessor.Major
  }

  /** `combined_data.get('value_aud')`: the scraped amount, when the page gave one. */
  function ValueAud(r: Record): Option<real>
  {
    if "value_aud" in r && r["value_aud"].Number? then Some(r["value_aud"].n) else None
  }

  // ---------------------------------------------------------------------
  // Combining decision and award pages
  // ---------------------------------------------------------------------

  /**
   * One collected grant: the decision fields overlaid by the award fields,
   * then its categories, size band and the time it was scraped.
   */
  function Combine(decision: Record, award: Record, now: string): Record
  {
    CombineIn(ScraperCatalog, decision, award, now)
  }

  /** `Combine` with the categories drawn from a given catalog. */
  function CombineIn(cats: seq<(string, seq<string>)>, decision: Record, award: Record, now: string): Record
  {
    var merged := decision + award;
    merged["categories" := List(CategoriesIn(cats, ScrapedText(merged)))]
          ["size_category" := Text(GrantDataProcessor.SizeName(ScrapedSize(ValueAud(merged))))]
          ["scraped_at" := Text(now)]
  }

  /** The fields of a combined record: award over decision, plus the three derived fields. */
  lemma CombineFields(cats: seq<(string, seq<string>)>, decision: Record, award: Record, now: string)
    ensures var r := CombineIn(cats, decision, award, now);
      && (forall k :: k in award && k != "categories" && k != "size_category" && k != "scraped_at" ==> k in r && r[k] == award[k])
      && (forall k :: k in decision && k !in award && k != "categories" && k != "size_category" && k != "scraped_at" ==>
            k in r && r[k] == decision[k])
      && r.Keys == decision.Keys + award.Keys + {"categories", "size_category", "scraped_at"}
      && r["categories"] == List(CategoriesIn(cats, ScrapedText(decision + award)))
      && r["scraped_at"] == Text(now)
  {
    var merged := decision + award;
    var r := CombineIn(cats, decision, award, now);
    StampedFields(merged, List(CategoriesIn(cats, ScrapedText(merged))),
                  Text(GrantDataProcessor.SizeName(ScrapedSize(ValueAud(merged)))), Text(now));
    assert r.Keys == merged.Keys + {"categories", "size_category", "scraped_at"};
  }

  /** Setting the three derived fields keeps every other field. */
  lemma StampedFields(merged: Record, categories: Value, size: Value, stamp: Value)
    ensures var r := merged["categories" := categories]["size_category" := size]["scraped_at" := stamp];
      && (forall k :: k in merged && k != "categories" && k != "size_category" && k != "scraped_at" ==> k in r && r[k] == merged[k])
      && r.Keys == merged.Keys + {"categories", "size_category", "scraped_at"}
      && r["categories"] == categories && r["scraped_at"] == stamp
  {
  }

  // ---------------------------------------------------------------------
  // CSV rows
  // ---------------------------------------------------------------------

  /** Python's ordering of strings: code point by code point, a proper prefix first. */
  predicate Below(a: string, b: string)
  {
    if a == [] then b != []
    else b != [] && (a[0] < b[0] || (a[0] == b[0] && Below(a[1..], b[1..])))
  }

  lemma {:induction false} BelowIrreflexive(a: string)
    ensures !Below(a, a)
  {
    if a != [] {
      BelowIrreflexive(a[1..]);
    }
  }

  lemma {:induction false} BelowTransitive(a: string, b: string, c: string)
    requires Below(a, b) && Below(b, c)
    ensures Below(a, c)
  {
    if a != [] && a[0] == b[0] && b[0] == c[0] {
      BelowTransitive(a[1..], b[1..], c[1..]);
    }
  }

  lemma {:induction false} BelowTotal(a: string, b: string)
    ensures a == b || Below(a, b) || Below(b, a)
  {
    if a != [] && b != [] && a[0] == b[0] {
      BelowTotal(a[1..], b[1..]);
      if a[1..] == b[1..] {
        assert a == [a[0]] + a[1..] && b == [b[0]] + b[1..];
      }
    }
  }

  /** Strictly increasing in Python's string order, hence without duplicates. */
  predicate StrictlySorted(s: seq<string>)
  {
    forall i, j :: 0 <= i < j < |s| ==> Below(s[i], s[j])
  }

  /** A key inserted at its place in a sorted list of keys. */
  function InsertSorted(x: string, s: seq<string>): (r: seq<string>)
    requires StrictlySorted(s)
    ensures StrictlySorted(r)
    ensures forall y :: y in r <==> y == x || y in s
  {
    if s == [] then [x]
    else if x == s[0] then s
    else if Below(x, s[0]) then
      SortedHead(x, s);
      [x] + s
    else
      BelowTotal(x, s[0]);
      var rest := InsertSorted(x, s[1..]);
      SortedHead(s[0], rest);
      [s[0]] + rest
  }

  /** A key below every key of a sorted list (or below its first) can be put in front. */
  lemma SortedHead(x: string, s: seq<string>)
    requires StrictlySorted(s)
    requires s != [] ==> Below(x, s[0]) || forall y :: y in s ==> Below(x, y)
    ensures StrictlySorted([x] + s)
  {
    if s != [] && Below(x, s[0]) {
      forall j | 0 <= j < |s|
        ensures Below(x, s[j])
      {
        if j > 0 {
          BelowTransitive(x, s[0], s[j]);
        }
      }
    }
    forall i, j | 0 <= i < j < |[x] + s|
      ensures Below(([x] + s)[i], ([x] + s)[j])
    {
      if i == 0 {
        assert s[j - 1] in s;
      }
    }
  }

  /** `sorted(keys)`: the keys, in increasing order. */
  method SortKeys(keys: set<string>) returns (r: seq<string>)
    ensures StrictlySorted(r)
    ensures forall k :: k in r <==> k in keys
  {
    r := [];
    var rest := keys;
    while rest != {}
      invariant rest <= keys
      invariant StrictlySorted(r)
      invariant forall k :: k in r <==> k in keys && k !in rest
      decreases |rest|
    {
      var k :| k in rest;
      r := InsertSorted(k, r);
      rest := rest - {k};
    }
  }

  /** The union of the keys of the records. */
  function AllKeys(records: seq<Record>): set<string>
  {
    if records == [] then {} else AllKeys(records[..|records| - 1]) + records[|records| - 1].Keys
  }

  /** A key is in the union exactly when some record has it. */
  lemma {:induction false} AllKeysMember(records: seq<Record>, k: string)
    ensures k in AllKeys(records) <==> exists i :: 0 <= i < |records| && k in records[i]
  {
    if records != [] {
      var init := records[..|records| - 1];
      AllKeysMember(init, k);
      if k in AllKeys(init) {
        var i :| 0 <= i < |init| && k in init[i];
        assert k in records[i];
      }
      if exists i :: 0 <= i < |records| && k in records[i] {
        var i :| 0 <= i < |records| && k in records[i];
        if i < |records| - 1 {
          assert k in init[i];
        }
      }
    }
  }

  /** The loop `all_keys.update(grant.keys())` over the records. */
  method CollectKeys(records: seq<Record>) returns (allKeys: set<string>)
    ensures forall k :: k in allKeys <==> exists i :: 0 <= i < |records| && k in records[i]
  {
    allKeys := {};
    var i := 0;
    while i < |records|
      invariant 0 <= i <= |records|
      invariant allKeys == AllKeys(records[..i])
    {
      assert records[..i + 1][..i] == records[..i];
      allKeys := allKeys + records[i].Keys;
      i := i + 1;
    }
    assert records[..i] == records;
    forall k
      ensures k in allKeys <==> exists j :: 0 <= j < |records| && k in records[j]
    {
      AllKeysMember(records, k);
    }
  }

  /** A value as written to a CSV cell: a list becomes its items joined with ', '. */
  function CsvCell(v: Value): (c: Value)
    ensures !c.List?
    ensures v.List? ==> c == Text(JoinWith(v.items, ", "))
    ensures !v.List? ==> c == v
  {
    if v.List? then Text(JoinWith(v.items, ", ")) else v
  }

  /** A record with its list values flattened. */
  function Flattened(record: Record): (row: Record)
    ensures row.Keys == record.Keys
    ensures forall k :: k in record ==> !row[k].List? && row[k] == CsvCell(record[k])
  {
    map k | k in record :: CsvCell(record[k])
  }

  /** The loop over `row.items()` that flattens list values in a copy of the record. */
  method FlattenRow(record: Record) returns (row: Record)
    ensures row == Flattened(record)
  {
    row := record;
    var rest := record.Keys;
    while rest != {}
      invariant rest <= record.Keys
      invariant row.Keys == record.Keys
      invariant forall k :: k in record ==> row[k] == (if k in rest then record[k] else CsvCell(record[k]))
      decreases |rest|
    {
      var k :| k in rest;
      if row[k].List? {
        row := row[k := Text(JoinWith(row[k].items, ", "))];
      }
      rest := rest - {k};
    }
  }

  /** `DictWriter.writerow`: one cell per header, empty text where the row has no such key. */
  function WriteRow(headers: seq<string>, row: Record): (cells: seq<Value>)
    ensures |cells| == |headers|
    ensures forall i :: 0 <= i < |headers| ==> cells[i] == (if headers[i] in row then row[headers[i]] else Text(""))
  {
    seq(|headers|, i requires 0 <= i < |headers| => if headers[i] in row then row[headers[i]] else Text(""))
  }

  /** What `save_to_csv` writes: the header line and one line of cells per record. */
  datatype CsvTable = CsvTable(headers: seq<string>, rows: seq<seq<Value>>)

  // ---------------------------------------------------------------------
  // Summary statistics
  // ---------------------------------------------------------------------

  /** `g.get('value_aud', 0)` added to a sum: `None` where the addition raises. */
  function Contribution(r: Record): Option<real>
  {
    if "value_aud" !in r then Some(0.0)
    else if r["value_aud"].Number? then Some(r["value_aud"].n)
    else None
  }

  /** `sum(g.get('value_aud', 0) for g in records)`, `None` when it raises. */
  function TotalValue(records: seq<Record>): Option<real>
  {
    if records == [] then Some(0.0)
    else match (TotalValue(records[..|records| - 1]), Contribution(records[|records| - 1]))
      case (Some(t), Some(x)) => Some(t + x)
      case _ => None
  }

  /**
   * The labels iterated by `for cat in grant.get('categories', [])`: the
   * list's items, the characters of a text, nothing for an absent key, and
   * `None` where iterating raises.
   */
  function Labels(r: Record): Option<seq<Value>>
  {
    if "categories" !in r then Some([])
    else match r["categories"]
      case List(items) => Some(seq(|items|, i requires 0 <= i < |items| => Text(items[i])))
      case Text(s) => Some(seq(|s|, i requires 0 <= i < |s| => Text([s[i]])))
      case _ => None
  }

  /** The labels of all records in order, `None` when one of them raises. */
  function AllLabels(records: seq<Record>): Option<seq<Value>>
  {
    if records == [] then Some([])
    else match (AllLabels(records[..|records| - 1]), Labels(records[|records| - 1]))
      case (Some(a), Some(b)) => Some(a + b)
      case _ => None
  }

  /** `grant.get(key, 'Unknown')`, the key a record is counted under. */
  function KeyOr(r: Record, key: string): Value
  {
    if key in r then r[key] else Text("Unknown")
  }

  function AgencyKey(r: Record): Value { KeyOr(r, "agency") }
  function StateKey(r: Record): Value { KeyOr(r, "recipient_state") }
  function SizeKey(r: Record): Value { KeyOr(r, "size_category") }
  function LabelKey(v: Value): Value { v }

  /** The statistics of a non-empty scrape. */
  datatype ScrapeStats = ScrapeStats(
    totalGrants: nat,
    totalValue: real,
    agencies: map<Value, nat>,
    states: map<Value, nat>,
    categories: map<Value, nat>,
    sizes: map<Value, nat>)

  /** What `get_summary_stats` ends with: `{}`, the statistics, or an exception. */
  datatype StatsOutcome = NoData | Stats(stats: ScrapeStats) | Raises

  lemma AllLabelsStep(records: seq<Record>, i: nat)
    requires i < |records| && AllLabels(records[..i]).Some? && Labels(records[i]).Some?
    ensures AllLabels(records[..i + 1]) == Some(AllLabels(records[..i]).value + Labels(records[i]).value)
  {
    assert records[..i + 1][..i] == records[..i];
  }

  lemma AllLabelsFail(records: seq<Record>, i: nat)
    requires i < |records| && AllLabels(records[..i]).Some? && Labels(records[i]).None?
    ensures AllLabels(records).None?
  {
    assert records[..i + 1][..i] == records[..i];
    AllLabelsPrefixFail(records, i + 1);
  }

  /** Once a prefix raises, the whole sequence does. */
  lemma {:induction false} AllLabelsPrefixFail(records: seq<Record>, n: nat)
    requires n <= |records| && AllLabels(records[..n]).None?
    ensures AllLabels(records).None?
    decreases |records| - n
  {
    if n < |records| {
      assert records[..n + 1][..n] == records[..n];
      AllLabelsPrefixFail(records, n + 1);
    } else {
      assert records[..n] == records;
    }
  }

  /** Counting the labels one at a time. */
  lemma LabelTallyStep(done: seq<Value>, labels: seq<Value>, j: nat)
    requires j < |labels|
    ensures Tally(done + labels[..j + 1], LabelKey)
            == Tally(done + labels[..j], LabelKey)[labels[j] := CountIn(Tally(done + labels[..j], LabelKey), labels[j]) + 1]
  {
    assert (done + labels[..j + 1])[..|done + labels[..j + 1]| - 1] == done + labels[..j];
  }

  /** The inner loop `for cat in categories: counts[cat] = counts.get(cat, 0) + 1`. */
  method CountLabels(counts: map<Value, nat>, ghost done: seq<Value>, labels: seq<Value>, ghost after: seq<Value>)
    returns (r: map<Value, nat>)
    requires counts == Tally(done, LabelKey) && after == done + labels
    ensures r == Tally(after, LabelKey)
  {
    r := counts;
    var j := 0;
    assert done + labels[..j] == done;
    while j < |labels|
      invariant 0 <= j <= |labels|
      invariant r == Tally(done + labels[..j], LabelKey)
    {
      LabelTallyStep(done, labels, j);
      r := r[labels[j] := CountIn(r, labels[j]) + 1];
      j := j + 1;
    }
    assert labels[..j] == labels;
  }

  /** Turn `k` of the scrape combines the `k`-th fetched pair, stamped with the `k`-th clock reading. */
  function CombineStep(cats: seq<(string, seq<string>)>, clock: nat -> string): (step: ((Record, Record), nat) -> Record)
    ensures forall p, k :: step(p, k) == CombineIn(cats, p.0, p.1, clock(k))
  {
    (p: (Record, Record), k: nat) => CombineIn(cats, p.0, p.1, clock(k))
  }

  /** The scraper object: the grants of the last scrape. */
  class GrantsGovAuScraper {
    var grantsData: seq<Record>

    constructor()
      ensures grantsData == []
    {
      grantsData := [];
    }

    /**
     * The collecting part of `scrape_grants`: each fetched pair of decision
     * and award fields, in order, becomes one combined record stamped with
     * the clock reading of its turn; the records replace the scraped grants.
     */
    method CollectGrants(fetched: seq<(Record, Record)>, clock: nat -> string) returns (all: seq<Record>)
      modifies this
      ensures |all| == |fetched|
      ensures forall i :: 0 <= i < |fetched| ==> all[i] == Combine(fetched[i].0, fetched[i].1, clock(i))
      ensures grantsData == all
    {
      all := CombineAll(ScraperCatalog, fetched, clock);
      StepPrefixAt(fetched, CombineStep(ScraperCatalog, clock), |fetched|);
      grantsData := all;
    }

    /** The loop of `scrape_grants` over the fetched pages, turn by turn. */
    static method CombineAll(cats: seq<(string, seq<string>)>, fetched: seq<(Record, Record)>, clock: nat -> string)
      returns (all: seq<Record>)
      ensures all == StepPrefix(fetched, CombineStep(cats, clock), |fetched|)
    {
      all := [];
      var i := 0;
      while i < |fetched|
        invariant 0 <= i <= |fetched|
        invariant all == StepPrefix(fetched, CombineStep(cats, clock), i)
      {
        all := CombineTurn(cats, fetched, clock, i, all);
        i := i + 1;
      }
    }

    /** One turn of `scrape_grants`: the pages' fields, their categories, size band and time stamp. */
    static method CombineTurn(cats: seq<(string, seq<string>)>, fetched: seq<(Record, Record)>, clock: nat -> string,
                              i: nat, all: seq<Record>)
      returns (next: seq<Record>)
      requires i < |fetched| && all == StepPrefix(fetched, CombineStep(cats, clock), i)
      ensures next == StepPrefix(fetched, CombineStep(cats, clock), i + 1)
    {
      var combined := fetched[i].0 + fetched[i].1;
      var categories := CategorizeWith(cats, combined);
      combined := combined["categories" := List(categories)];
      combined := combined["size_category" := Text(GrantDataProcessor.SizeName(ScrapedSize(ValueAud(combined))))];
      combined := combined["scraped_at" := Text(clock(i))];
      next := all + [combined];
    }

    /**
     * `save_to_csv` without the file: nothing for no data, else the sorted
     * union of all keys as headers and one flattened row per record.
     */
    method SaveToCsv() returns (table: Option<CsvTable>)
      ensures table.None? <==> grantsData == []
      ensures table.Some? ==> StrictlySorted(table.value.headers)
      ensures table.Some? ==> forall k :: k in table.value.headers <==> exists i :: 0 <= i < |grantsData| && k in grantsData[i]
      ensures table.Some? ==> |table.value.rows| == |grantsData|
      ensures table.Some? ==> forall i :: 0 <= i < |grantsData| ==>
                table.value.rows[i] == WriteRow(table.value.headers, Flattened(grantsData[i]))
    {
      var records := grantsData;
      if records == [] {
        return None;
      }
      var allKeys := CollectKeys(records);
      var headers := SortKeys(allKeys);
      var rows: seq<seq<Value>> := [];
      var i := 0;
      while i < |records|
        invariant 0 <= i <= |records|
        invariant |rows| == i
        invariant forall j :: 0 <= j < i ==> rows[j] == WriteRow(headers, Flattened(records[j]))
      {
        var row := FlattenRow(records[i]);
        rows := rows + [WriteRow(headers, row)];
        i := i + 1;
      }
      table := Some(CsvTable(headers, rows));
    }

    /**
     * `get_summary_stats`: `{}` for no data; otherwise the count, the total
     * value and the agency, state, category-label and size counters, or an
     * exception when a value cannot be summed or a category value iterated.
     */
    method GetSummaryStats() returns (o: StatsOutcome)
      ensures o.NoData? <==> grantsData == []
      ensures o.Raises? <==> grantsData != [] && (TotalValue(grantsData).None? || AllLabels(grantsData).None?)
      ensures o.Stats? ==> o.stats.totalGrants == |grantsData| && o.stats.totalValue == TotalValue(grantsData).value
      ensures o.Stats? ==> o.stats.agencies == Tally(grantsData, AgencyKey)
                           && o.stats.states == Tally(grantsData, StateKey)
                           && o.stats.sizes == Tally(grantsData, SizeKey)
                           && o.stats.categories == Tally(AllLabels(grantsData).value, LabelKey)
    {
      var records := grantsData;
      if records == [] {
        return NoData;
      }
      var total := TotalValue(records);
      if total.None? {
        return Raises;
      }
      var agencies: map<Value, nat> := map[];
      var states: map<Value, nat> := map[];
      var categories: map<Value, nat> := map[];
      var sizes: map<Value, nat> := map[];
      var i := 0;
      while i < |records|
        invariant 0 <= i <= |records|
        invariant AllLabels(records[..i]).Some?
        invariant agencies == Tally(records[..i], AgencyKey)
        invariant states == Tally(records[..i], StateKey)
        invariant categories == Tally(AllLabels(records[..i]).value, LabelKey)
        invariant sizes == Tally(records[..i], SizeKey)
      {
        var g := records[i];
        agencies := CountNext(records, AgencyKey, i, agencies);
        states := CountNext(records, StateKey, i, states);
        var labels := Labels(g);
        if labels.None? {
          AllLabelsFail(records, i);
          return Raises;
        }
        AllLabelsStep(records, i);
        categories := CountLabels(categories, AllLabels(records[..i]).value, labels.value, AllLabels(records[..i + 1]).value);
        sizes := CountNext(records, SizeKey, i, sizes);
        i := i + 1;
      }
      assert records[..i] == records;
      o := Stats(ScrapeStats(|records|, total.value, agencies, states, categories, sizes));
    }
  }

  /**
   * The agency, state and size counters each add up to the number of
   * grants, and the category counters to the number of category labels.
   */
  lemma StatsTotals(records: seq<Record>)
    requires AllLabels(records).Some?
    ensures MapSum(Tally(records, AgencyKey)) == |records|
    ensures MapSum(Tally(records, StateKey)) == |records|
    ensures MapSum(Tally(records, SizeKey)) == |records|
    ensures MapSum(Tally(AllLabels(records).value, LabelKey)) == |AllLabels(records).value|
  {
    TallyTotal(records, AgencyKey);
    TallyTotal(records, StateKey);
    TallyTotal(records, SizeKey);
    TallyTotal(AllLabels(records).value, LabelKey);
  }
}

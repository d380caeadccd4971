/**
 * The grant and application tables and the CRUD operations on them
 * (backend/app/crud/grant.py).  The tables are maps from row id to record;
 * ids are allocated from counters that start at 1, as an autoincrement key
 * does.  The clock and the current year are parameters.
 */
module GrantCrud {
  import opened Common
  import opened Text
  import opened GrantModel
  import opened GrantSchemas
  import opened Slug

  /** The grant filters of `get_grants`; `None` leaves a filter off. */
  datatype GrantQuery = GrantQuery(
    status: Option<GrantStatus>,
    category: Option<GrantCategory>,
    organizationId: Option<int>,
    search: Option<string>,
    isFeatured: Option<bool>,
    isOpen: Option<bool>)

  /** The `is_open=True` filter. */
  predicate OpenFilter(g: Grant, now: int)
  {
    g.status == GPublished && g.openDate <= now && g.closeDate >= now
  }

  /** The `is_open=False` filter. */
  predicate ClosedFilter(g: Grant, now: int)
  {
    g.status != GPublished || g.openDate > now || g.closeDate < now
  }

  /**
   * The two open filters are exact complements, and the first is the
   * model's own `is_open`.
   */
  lemma OpenFiltersPartition(g: Grant, now: int)
    ensures OpenFilter(g, now) <==> !ClosedFilter(g, now)
    ensures OpenFilter(g, now) <==> IsOpen(g, now)
  {
  }

  /**
   * One row against the filters of `get_grants`.  An organization filter of
   * 0 and an empty search count as absent, as Python truthiness has it.
   */
  predicate Matches(g: Grant, q: GrantQuery, now: int)
  {
    (q.status.None? || g.status == q.status.value)
    && (q.category.None? || g.category == q.category.value)
    && (!Truthy(q.organizationId) || g.organizationId == q.organizationId.value)
    && (q.isFeatured.None? || g.isFeatured == q.isFeatured.value)
    && (q.search.None? || q.search.value == []
        || ContainsIgnoringCase(g.title, q.search.value)
        || ContainsIgnoringCase(g.description, q.search.value)
        || ContainsIgnoringCase(g.organizationName, q.search.value))
    && (q.isOpen.None? || (if q.isOpen.value then OpenFilter(g, now) else ClosedFilter(g, now)))
  }

  /** `get_grants_count`: counts with the status, category and organization filters only. */
  predicate CountMatches(g: Grant, q: GrantQuery)
  {
    (q.status.None? || g.status == q.status.value)
    && (q.category.None? || g.category == q.category.value)
    && (!Truthy(q.organizationId) || g.organizationId == q.organizationId.value)
  }

  /** The ids `get_grants` selects, before ordering and paging. */
  function SelectGrants(grants: map<nat, Grant>, q: GrantQuery, now: int): (ids: set<nat>)
    ensures forall k :: k in ids <==> k in grants && Matches(grants[k], q, now)
  {
    set k | k in grants && Matches(grants[k], q, now)
  }

  /** The ids `get_grants_count` counts. */
  function CountGrants(grants: map<nat, Grant>, q: GrantQuery): (ids: set<nat>)
    ensures forall k :: k in ids <==> k in grants && CountMatches(grants[k], q)
  {
    set k | k in grants && CountMatches(grants[k], q)
  }

  /**
   * The listed rows are always among the counted ones: the count ignores the
   * search, featured and open filters, so `total` can exceed what is listed.
   */
  lemma SelectedAreCounted(grants: map<nat, Grant>, q: GrantQuery, now: int)
    ensures SelectGrants(grants, q, now) <= CountGrants(grants, q)
    ensures |SelectGrants(grants, q, now)| <= |CountGrants(grants, q)|
  {
    assert SelectGrants(grants, q, now) <= CountGrants(grants, q);
    SubsetCardinality(SelectGrants(grants, q, now), CountGrants(grants, q));
  }

  /** Testing one more untested member of `taken` leaves fewer untested. */
  lemma FewerUntried<T>(taken: set<T>, tried: set<T>, x: T)
    requires x in taken && x !in tried
    ensures |taken - (tried + {x})| < |taken - tried|
  {
    assert taken - tried == (taken - (tried + {x})) + {x};
  }

  /**
   * `setattr` of every supplied field of a `GrantUpdate`; fields not supplied
   * keep their value.
   */
  function ApplyGrantUpdate(g: Grant, u: GrantUpdate): (r: Grant)
    ensures r.id == g.id && r.slug == g.slug && r.organizationId == g.organizationId
    ensures r.organizationName == g.organizationName
    ensures r.createdBy == g.createdBy && r.viewCount == g.viewCount
    ensures r.allocatedAmount == g.allocatedAmount
    ensures u.status.Some? ==> r.status == u.status.value
    ensures u.status.None? ==> r.status == g.status
  {
    Grant(g.id, Supplied(u.title, g.title), g.slug, Supplied(u.description, g.description),
          Supplied(u.totalFunding, g.totalFunding), Supplied(u.minAmount, g.minAmount),
          Supplied(u.maxAmount, g.maxAmount), g.allocatedAmount, Supplied(u.category, g.category),
          Supplied(u.openDate, g.openDate), Supplied(u.closeDate, g.closeDate),
          Supplied(u.status, g.status), Supplied(u.isFeatured, g.isFeatured),
          g.organizationId, g.organizationName, g.createdBy, g.viewCount)
  }

  /** An update that supplies nothing leaves the grant as it was. */
  lemma EmptyGrantUpdateIsIdentity(g: Grant)
    ensures ApplyGrantUpdate(g, EmptyGrantUpdate) == g
  {
  }

  /** Applying the same update twice is the same as applying it once. */
  lemma GrantUpdateIdempotent(g: Grant, u: GrantUpdate)
    ensures ApplyGrantUpdate(ApplyGrantUpdate(g, u), u) == ApplyGrantUpdate(g, u)
  {
  }

  /** A status-only update changes the status and nothing else. */
  lemma StatusUpdateOnlyStatus(g: Grant, s: GrantStatus)
    ensures ApplyGrantUpdate(g, StatusUpdate(s)) == g.(status := s)
  {
  }

  /** `setattr` of every supplied field of an `ApplicationUpdate`. */
  function ApplyApplicationUpdate(a: Application, u: ApplicationUpdate): (r: Application)
    ensures r.id == a.id && r.referenceNumber == a.referenceNumber
    ensures r.grantId == a.grantId && r.applicantId == a.applicantId
    ensures r.status == a.status && r.submittedAt == a.submittedAt
    ensures r.reviewedAt == a.reviewedAt && r.reviewedBy == a.reviewedBy && r.score == a.score
  {
    a.(projectTitle := Supplied(u.projectTitle, a.projectTitle),
       projectDescription := Supplied(u.projectDescription, a.projectDescription),
       requestedAmount := Supplied(u.requestedAmount, a.requestedAmount),
       organizationName := Supplied(u.organizationName, a.organizationName))
  }

  lemma EmptyApplicationUpdateIsIdentity(a: Application)
    ensures ApplyApplicationUpdate(a, ApplicationUpdate(None, None, None, None)) == a
  {
  }

  /**
   * `submit_application` on one row: only a DRAFT moves, to SUBMITTED,
   * stamped with the submission time.
   */
  function Submit(a: Application, now: int): (r: Option<Application>)
    ensures r.Some? <==> a.status == Draft
    ensures r.Some? ==> r.value.status == Submitted && r.value.submittedAt == Some(now)
    ensures r.Some? ==> IsSubmitted(r.value) && !IsEditable(r.value)
    ensures r.Some? ==> r.value == a.(status := Submitted, submittedAt := Some(now))
  {
    if a.status != Draft then None else Some(a.(status := Submitted, submittedAt := Some(now)))
  }

  /** A submitted application cannot be submitted again. */
  lemma SubmitOnce(a: Application, now: int, later: int)
    requires Submit(a, now).Some?
    ensures Submit(Submit(a, now).value, later).None?
  {
  }

  /**
   * `review_application` on one row: the given status is written whatever the
   * current one, with the review time, the reviewer and the review fields.
   */
  function Review(a: Application, reviewerId: nat, rv: ApplicationReview, now: int): (r: Application)
    ensures r.status == rv.status && r.reviewedAt == Some(now) && r.reviewedBy == Some(reviewerId)
    ensures r.reviewerNotes == rv.reviewerNotes && r.feedback == rv.feedback && r.score == rv.score
    ensures r.id == a.id && r.grantId == a.grantId && r.applicantId == a.applicantId
    ensures r.referenceNumber == a.referenceNumber && r.submittedAt == a.submittedAt
    ensures r.requestedAmount == a.requestedAmount
  {
    a.(status := rv.status, reviewedAt := Some(now), reviewedBy := Some(reviewerId),
       reviewerNotes := rv.reviewerNotes, feedback := rv.feedback, score := rv.score)
  }

  /**
   * `t` is one of the slugs the uniqueness loop tests before its counter
   * reaches `n`: the base, or a candidate numbered below `n - 1`... written
   * without a quantifier, by reading the number back.
   */
  predicate TriedBefore(base: string, t: string, n: nat)
  {
    (t == base && n > 1)
    || (|t| > |base| + 1 && t[..|base| + 1] == base + "-" && AllDigits(t[|base| + 1..])
        && ParseDigits(t[|base| + 1..]) < n - 1)
  }

  lemma CandidateSuffix(base: string, k: nat)
    ensures |Candidate(base, k)| > |base| + 1
    ensures Candidate(base, k)[..|base| + 1] == base + "-"
    ensures Candidate(base, k)[|base| + 1..] == Decimal(k)
    ensures ParseDigits(Candidate(base, k)[|base| + 1..]) == k
  {
    ParseDecimal(k);
  }

  /** The slug the loop tests at counter `n` has not been tested before. */
  lemma TriedBeforeExcludes(base: string, tried: set<string>, n: nat)
    requires n >= 1
    requires forall t :: t in tried ==> TriedBefore(base, t, n)
    ensures (if n == 1 then base else Candidate(base, n - 1)) !in tried
  {
    if n > 1 {
      CandidateSuffix(base, n - 1);
    }
  }

  /** Advancing the counter keeps every earlier slug among the tested ones. */
  lemma TriedBeforeGrows(base: string, t: string, n: nat)
    requires n >= 1
    requires TriedBefore(base, t, n) || t == (if n == 1 then base else Candidate(base, n - 1))
    ensures TriedBefore(base, t, n + 1)
  {
    if n > 1 && t == Candidate(base, n - 1) {
      CandidateSuffix(base, n - 1);
    }
  }

  /**
   * The state of the slug loop after `counter - 1` taken slugs: `slug` is
   * the next one to test, every earlier one was taken, and `tried` holds
   * them, so that the untried taken slugs bound the remaining turns.
   */
  ghost predicate SlugSearch(base: string, taken: set<string>, tried: set<string>, counter: nat, slug: string)
  {
    && counter >= 1
    && slug == (if counter == 1 then base else Candidate(base, counter - 1))
    && (counter > 1 ==> base in taken)
    && (forall j :: 1 <= j < counter - 1 ==> Candidate(base, j) in taken)
    && tried <= taken && |tried| == counter - 1
    && (forall t :: t in tried ==> TriedBefore(base, t, counter))
  }

  /** A taken slug moves the search on to the next candidate, with fewer taken slugs left untried. */
  lemma SlugSearchStep(base: string, taken: set<string>, tried: set<string>, counter: nat, slug: string)
    requires SlugSearch(base, taken, tried, counter, slug) && slug in taken
    ensures SlugSearch(base, taken, tried + {slug}, counter + 1, Candidate(base, counter))
    ensures |taken - (tried + {slug})| < |taken - tried|
  {
    TriedBeforeExcludes(base, tried, counter);
    FewerUntried(taken, tried, slug);
    forall t | t in tried + {slug}
      ensures TriedBefore(base, t, counter + 1)
    {
      TriedBeforeGrows(base, t, counter);
    }
    forall j | 1 <= j < counter
      ensures Candidate(base, j) in taken
    {
      if j == counter - 1 {
        assert Candidate(base, j) == slug;
      }
    }
  }

  /** The grant and application tables. */
  class Store {
    var grants: map<nat, Grant>
    var applications: map<nat, Application>
    var nextGrantId: nat
    var nextApplicationId: nat

    /**
     * Row ids are the map keys, lie below the next id to allocate, and the
     * slug column is unique.
     */
    ghost predicate Valid()
      reads this
    {
      nextGrantId >= 1 && nextApplicationId >= 1
      && (forall k :: k in grants ==> 1 <= k < nextGrantId && grants[k].id == k)
      && (forall k :: k in applications ==> 1 <= k < nextApplicationId && applications[k].id == k)
      && (forall j, k :: j in grants && k in grants && j != k ==> grants[j].slug != grants[k].slug)
    }

    constructor ()
      ensures Valid()
      ensures grants == map[] && applications == map[]
    {
      grants := map[];
      applications := map[];
      nextGrantId := 1;
      nextApplicationId := 1;
    }

    /** The slugs in use. */
    function Slugs(): (s: set<string>)
      reads this
      ensures forall k :: k in grants ==> grants[k].slug in s
      ensures forall t :: t in s ==> exists k :: k in grants && grants[k].slug == t
    {
      set k | k in grants :: grants[k].slug
    }

    /** `get_grant_by_slug(db, s)` finds a row. */
    predicate SlugInUse(s: string)
      reads this
    {
      s in Slugs()
    }

    /**
     * The uniqueness loop of `create_grant`: the base slug if free, otherwise
     * the first free one of `base-1`, `base-2`, ...
     */
    method UniqueSlug(base: string) returns (slug: string)
      ensures slug !in Slugs()
      ensures slug == base <==> base !in Slugs()
      ensures slug != base ==> exists k :: k >= 1 && slug == Candidate(base, k)
                                && forall j :: 1 <= j < k ==> Candidate(base, j) in Slugs()
    {
      var taken := Slugs();
      slug := base;
      var counter: nat := 1;
      ghost var tried: set<string> := {};
      while SlugInUse(slug)
        invariant SlugSearch(base, taken, tried, counter, slug)
        decreases |taken - tried|
      {
        SlugSearchStep(base, taken, tried, counter, slug);
        tried := tried + {slug};
        slug := Candidate(base, counter);
        counter := counter + 1;
      }
    }

    /**
     * `create_grant`: a new DRAFT row under the next id, with the derived slug
     * made unique.
     */
    method CreateGrant(data: GrantCreate, creatorId: nat) returns (g: Grant)
      requires Valid()
      modifies this
      ensures Valid()
      ensures g.id == old(nextGrantId) && g.id !in old(grants)
      ensures g.slug !in old(Slugs())
      ensures g.slug == Slugify(data.title) || exists k :: k >= 1 && g.slug == Candidate(Slugify(data.title), k)
      ensures g == NewGrant(g.id, data.title, g.slug, data.description, data.totalFunding,
                            data.minAmount, data.maxAmount, data.category, data.openDate,
                            data.closeDate, data.organizationId, data.organizationName, creatorId)
      ensures grants == old(grants)[g.id := g] && applications == old(applications)
      ensures nextApplicationId == old(nextApplicationId)
    {
      var slug := UniqueSlug(Slugify(data.title));
      g := NewGrant(nextGrantId, data.title, slug, data.description, data.totalFunding,
                    data.minAmount, data.maxAmount, data.category, data.openDate,
                    data.closeDate, data.organizationId, data.organizationName, creatorId);
      AddGrantRow(g);
    }

    /** Stores a row under the next id whose slug is not in use. */
    method AddGrantRow(g: Grant)
      requires Valid()
      requires g.id == nextGrantId && g.slug !in Slugs()
      modifies this
      ensures Valid()
      ensures grants == old(grants)[g.id := g] && applications == old(applications)
      ensures nextGrantId == old(nextGrantId) + 1 && nextApplicationId == old(nextApplicationId)
    {
      var before := grants;
      assert forall k :: k in before ==> before[k].slug != g.slug;
      grants := grants[g.id := g];
      nextGrantId := nextGrantId + 1;
      forall j, k | j in grants && k in grants && j != k
        ensures grants[j].slug != grants[k].slug
      {
        if j != g.id && k != g.id {
          assert grants[j] == before[j] && grants[k] == before[k];
        }
      }
    }

    /** `update_grant`: the supplied fields are written; a missing id gives `None`. */
    method UpdateGrant(id: nat, u: GrantUpdate) returns (r: Option<Grant>)
      requires Valid()
      modifies this
      ensures Valid()
      ensures r.None? <==> id !in old(grants)
      ensures r.None? ==> grants == old(grants)
      ensures r.Some? ==> r.value == ApplyGrantUpdate(old(grants)[id], u) && grants == old(grants)[id := r.value]
      ensures applications == old(applications)
      ensures nextGrantId == old(nextGrantId) && nextApplicationId == old(nextApplicationId)
    {
      if id !in grants {
        return None;
      }
      var g := ApplyGrantUpdate(grants[id], u);
      grants := grants[id := g];
      r := Some(g);
    }

    /** `delete_grant`: a soft delete, setting ARCHIVED; `false` for a missing id. */
    method DeleteGrant(id: nat) returns (ok: bool)
      requires Valid()
      modifies this
      ensures Valid()
      ensures ok <==> id in old(grants)
      ensures ok ==> grants == old(grants)[id := old(grants)[id].(status := GArchived)]
      ensures !ok ==> grants == old(grants)
      ensures applications == old(applications)
      ensures nextGrantId == old(nextGrantId) && nextApplicationId == old(nextApplicationId)
    {
      if id !in grants {
        return false;
      }
      grants := grants[id := grants[id].(status := GArchived)];
      ok := true;
    }

    /**
     * `create_application`: a new DRAFT row; once its id is allocated the
     * reference number is written from the year, the grant id and that id.
     */
    method CreateApplication(data: ApplicationCreate, applicantId: nat, year: nat) returns (a: Application)
      requires Valid()
      modifies this
      ensures Valid()
      ensures a.id == old(nextApplicationId) && a.id !in old(applications)
      ensures a.referenceNumber == ReferenceNumber(year, data.grantId, a.id)
      ensures a == NewApplication(a.id, a.referenceNumber, data.grantId, applicantId, data.projectTitle,
                                  data.projectDescription, data.requestedAmount, data.organizationName)
      ensures applications == old(applications)[a.id := a] && grants == old(grants)
      ensures nextGrantId == old(nextGrantId)
    {
      var id := nextApplicationId;
      a := NewApplication(id, [], data.grantId, applicantId, data.projectTitle,
                          data.projectDescription, data.requestedAmount, data.organizationName);
      nextApplicationId := nextApplicationId + 1;
      a := a.(referenceNumber := ReferenceNumber(year, data.grantId, id));
      applications := applications[id := a];
    }

    /**
     * `create_application` as written: the row is flushed before its
     * reference number is set, and `reference_number` is NOT NULL with no
     * default, so the INSERT is refused and the call raises.  Nothing is
     * stored; the id the INSERT drew from the sequence is used up.
     */
    method CreateApplicationAsWritten(data: ApplicationCreate, applicantId: nat, year: nat) returns (r: Result<Application>)
      requires Valid()
      modifies this
      ensures Valid()
      ensures r == Fail(ServerError)
      ensures applications == old(applications) && grants == old(grants)
      ensures nextApplicationId == old(nextApplicationId) + 1 && nextGrantId == old(nextGrantId)
    {
      var id := nextApplicationId;
      var a := NewApplication(id, [], data.grantId, applicantId, data.projectTitle,
                              data.projectDescription, data.requestedAmount, data.organizationName);
      nextApplicationId := nextApplicationId + 1;
      // The flushed row carries no reference number yet.
      assert a.referenceNumber == [];
      r := Fail(ServerError);
    }

    /** `update_application`: the supplied fields are written; a missing id gives `None`. */
    method UpdateApplication(id: nat, u: ApplicationUpdate) returns (r: Option<Application>)
      requires Valid()
      modifies this
      ensures Valid()
      ensures r.None? <==> id !in old(applications)
      ensures r.None? ==> applications == old(applications)
      ensures r.Some? ==> r.value == ApplyApplicationUpdate(old(applications)[id], u)
                          && applications == old(applications)[id := r.value]
      ensures grants == old(grants)
      ensures nextGrantId == old(nextGrantId) && nextApplicationId == old(nextApplicationId)
    {
      if id !in applications {
        return None;
      }
      var a := ApplyApplicationUpdate(applications[id], u);
      applications := applications[id := a];
      r := Some(a);
    }

    /** `submit_application`: `None`, and no change, for a missing id or a row not in DRAFT. */
    method SubmitApplication(id: nat, now: int) returns (r: Option<Application>)
      requires Valid()
      modifies this
      ensures Valid()
      ensures r.Some? <==> id in old(applications) && old(applications)[id].status == Draft
      ensures r.Some? ==> r == Submit(old(applications)[id], now) && applications == old(applications)[id := r.value]
      ensures r.None? ==> applications == old(applications)
      ensures grants == old(grants)
      ensures nextGrantId == old(nextGrantId) && nextApplicationId == old(nextApplicationId)
    {
      if id !in applications {
        return None;
      }
      r := Submit(applications[id], now);
      if r.Some? {
        applications := applications[id := r.value];
      }
    }

    /** `review_application`: `None` for a missing id; otherwise the review is written. */
    method ReviewApplication(id: nat, reviewerId: nat, rv: ApplicationReview, now: int) returns (r: Option<Application>)
      requires Valid()
      modifies this
      ensures Valid()
      ensures r.Some? <==> id in old(applications)
      ensures r.Some? ==> r.value == Review(old(applications)[id], reviewerId, rv, now)
                          && applications == old(applications)[id := r.value]
      ensures r.None? ==> applications == old(applications)
      ensures grants == old(grants)
      ensures nextGrantId == old(nextGrantId) && nextApplicationId == old(nextApplicationId)
    {
      if id !in applications {
        return None;
      }
      var a := Review(applications[id], reviewerId, rv, now);
      applications := applications[id := a];
      r := Some(a);
    }
  }
}

/**
 * The resource library tables (backend/app/crud/community.py and the
 * database steps of backend/app/api/v1/resources.py): categories,
 * resources with their view, download and like counters, the like rows,
 * and the ratings whose count and mean are kept on the resource.
 */
module Resources {
  import opened Common
  import opened Community

  datatype ResourceType = Template | Guide | Checklist | Example | Tool | Video | Webinar | Document | Link

  datatype ResourceCategory = ResourceCategory(
    id: nat,
    name: string,
    slug: string,
    organizationId: Option<int>,
    isGlobal: bool,
    isActive: bool,
    sortOrder: int,
    resourceCount: nat,
    createdBy: nat)

  datatype ResourceCategoryCreate = ResourceCategoryCreate(
    name: string,
    slug: string,
    organizationId: Option<int>,
    isGlobal: bool,
    isActive: bool,
    sortOrder: int)

  datatype Resource = Resource(
    id: nat,
    title: string,
    slug: string,
    description: string,
    resourceType: ResourceType,
    categoryId: nat,
    fileUrl: Option<string>,
    externalUrl: Option<string>,
    organizationId: Option<int>,
    isPublic: bool,
    tags: Option<seq<string>>,
    authorId: nat,
    isApproved: bool,
    isFeatured: bool,
    viewCount: nat,
    downloadCount: nat,
    likeCount: nat,
    ratingAverage: real,
    ratingCount: nat,
    fileName: Option<string>,
    fileSize: Option<nat>,
    mimeType: Option<string>)

  datatype ResourceCreate = ResourceCreate(
    title: string,
    description: string,
    resourceType: ResourceType,
    categoryId: nat,
    fileUrl: Option<string>,
    externalUrl: Option<string>,
    organizationId: Option<int>,
    isPublic: bool,
    tags: Option<seq<string>>)

  /** One user's rating of a resource. */
  datatype Rating = Rating(userId: nat, rating: int, review: Option<string>)

  function RatingSum(rows: seq<Rating>): int
  {
    if rows == [] then 0 else rows[0].rating + RatingSum(rows[1..])
  }

  /** `avg(rating)`, or 0.0 when there is no rating. */
  function Mean(rows: seq<Rating>): real
  {
    if rows == [] then 0.0 else (RatingSum(rows) as real) / (|rows| as real)
  }

  /** Ratings lie in 1..5 and each user has at most one. */
  predicate ValidRows(rows: seq<Rating>)
  {
    (forall i :: 0 <= i < |rows| ==> 1 <= rows[i].rating <= 5)
    && (forall i, j :: 0 <= i < j < |rows| ==> rows[i].userId != rows[j].userId)
  }

  predicate Rated(rows: seq<Rating>, userId: nat)
  {
    exists i :: 0 <= i < |rows| && rows[i].userId == userId
  }

  /**
   * The rating upsert of `rate_resource`: the user's existing row takes the
   * new rating and review, otherwise a new row is added.
   */
  function Upsert(rows: seq<Rating>, userId: nat, rating: int, review: Option<string>): (r: seq<Rating>)
    ensures Rated(rows, userId) ==> |r| == |rows|
    ensures !Rated(rows, userId) ==> r == rows + [Rating(userId, rating, review)]
    ensures Rating(userId, rating, review) in r
    ensures forall x :: x in r && x.userId != userId <==> x in rows && x.userId != userId
  {
    if rows == [] then [Rating(userId, rating, review)]
    else if rows[0].userId == userId then [Rating(userId, rating, review)] + rows[1..]
    else
      var rest := Upsert(rows[1..], userId, rating, review);
      assert Rated(rows, userId) <==> Rated(rows[1..], userId) by {
        if Rated(rows, userId) {
          var i :| 0 <= i < |rows| && rows[i].userId == userId;
          assert rows[1..][i - 1].userId == userId;
        }
        if Rated(rows[1..], userId) {
          var i :| 0 <= i < |rows[1..]| && rows[1..][i].userId == userId;
          assert rows[i + 1].userId == userId;
        }
      }
      assert !Rated(rows, userId) ==> [rows[0]] + (rows[1..] + [Rating(userId, rating, review)]) == rows + [Rating(userId, rating, review)];
      assert forall x :: x in rows <==> x == rows[0] || x in rows[1..];
      [rows[0]] + rest
  }

  /** The upsert keeps ratings in 1..5 and one row per user. */
  lemma {:induction false} UpsertValid(rows: seq<Rating>, userId: nat, rating: int, review: Option<string>)
    requires ValidRows(rows) && 1 <= rating <= 5
    ensures ValidRows(Upsert(rows, userId, rating, review))
  {
    if rows != [] && rows[0].userId != userId {
      var rest := Upsert(rows[1..], userId, rating, review);
      UpsertValid(rows[1..], userId, rating, review);
      forall j | 0 <= j < |rest| ensures rest[j].userId != rows[0].userId {
        assert rest[j] in rest;
        if rest[j].userId != userId {
          assert rest[j] in rows[1..];
          var k :| 0 <= k < |rows[1..]| && rows[1..][k] == rest[j];
          assert rows[k + 1] == rest[j];
        }
      }
      ConsValid(rows[0], rest);
    } else if rows != [] {
      var r := Upsert(rows, userId, rating, review);
      assert r[1..] == rows[1..];
      forall i, j | 0 <= i < j < |r| ensures r[i].userId != r[j].userId {
        assert r[j] == rows[j];
        if i > 0 {
          assert r[i] == rows[i];
        }
      }
    }
  }

  /** A valid row in front of valid rows for other users gives valid rows. */
  lemma ConsValid(head: Rating, rest: seq<Rating>)
    requires ValidRows(rest) && 1 <= head.rating <= 5
    requires forall j :: 0 <= j < |rest| ==> rest[j].userId != head.userId
    ensures ValidRows([head] + rest)
  {
    var r := [head] + rest;
    forall i, j | 0 <= i < j < |r| ensures r[i].userId != r[j].userId {
      assert r[j] == rest[j - 1];
      if i > 0 {
        assert r[i] == rest[i - 1];
      }
    }
    forall i | 0 <= i < |r| ensures 1 <= r[i].rating <= 5 {
      if i > 0 {
        assert r[i] == rest[i - 1];
      }
    }
  }

  /** The sum of ratings in 1..5 lies between the row count and five times it. */
  lemma {:induction false} RatingSumBounds(rows: seq<Rating>)
    requires forall i :: 0 <= i < |rows| ==> 1 <= rows[i].rating <= 5
    ensures |rows| <= RatingSum(rows) <= 5 * |rows|
  {
    if rows != [] {
      RatingSumBounds(rows[1..]);
    }
  }

  /** The mean of a non-empty list of ratings lies in 1..5. */
  lemma MeanBounds(rows: seq<Rating>)
    requires rows != [] && ValidRows(rows)
    ensures 1.0 <= Mean(rows) <= 5.0
  {
    RatingSumBounds(rows);
    QuotientBounds(RatingSum(rows) as real, |rows| as real);
  }

  /** The ratings of a resource (none when it has no row). */
  function RowsOf(ratings: map<nat, seq<Rating>>, rid: nat): seq<Rating>
  {
    if rid in ratings then ratings[rid] else []
  }

  /** The stored rating count and mean of every resource match its rating rows. */
  ghost predicate RatingsMatch(resources: map<nat, Resource>, ratings: map<nat, seq<Rating>>)
  {
    (forall rid :: rid in ratings ==> rid in resources && ValidRows(ratings[rid]))
    && forall rid :: rid in resources ==>
         resources[rid].ratingCount == |RowsOf(ratings, rid)| && resources[rid].ratingAverage == Mean(RowsOf(ratings, rid))
  }

  /** The stored like count of every resource matches its like rows. */
  ghost predicate LikesMatch(resources: map<nat, Resource>, likes: set<(nat, nat)>)
  {
    (forall p :: p in likes ==> p.0 in resources)
    && forall rid :: rid in resources ==> resources[rid].likeCount == |Likers(likes, rid)|
  }

  /** Recomputing one resource's rating figures from its new rows keeps every resource's figures matching. */
  lemma RatingsMatchAfterRate(resources: map<nat, Resource>, ratings: map<nat, seq<Rating>>, rid: nat, rows: seq<Rating>)
    requires RatingsMatch(resources, ratings) && rid in resources && ValidRows(rows)
    ensures RatingsMatch(resources[rid := resources[rid].(ratingAverage := Mean(rows), ratingCount := |rows|)], ratings[rid := rows])
  {
    var after := ratings[rid := rows];
    assert RowsOf(after, rid) == rows;
    forall other | other != rid
      ensures RowsOf(after, other) == RowsOf(ratings, other)
    {
    }
  }

  /** A change to a resource that leaves its like count alone keeps the like counts matching. */
  lemma LikesMatchAfterEdit(resources: map<nat, Resource>, likes: set<(nat, nat)>, rid: nat, res: Resource)
    requires LikesMatch(resources, likes) && rid in resources && res.likeCount == resources[rid].likeCount
    ensures LikesMatch(resources[rid := res], likes)
  {
  }

  /** Rows keyed by their ids, below the next ids, with like and rating figures matching their rows. */
  ghost predicate TablesValid(categories: map<nat, ResourceCategory>, resources: map<nat, Resource>, likes: set<(nat, nat)>,
                              ratings: map<nat, seq<Rating>>, nextCategoryId: nat, nextResourceId: nat)
  {
    (forall k :: k in categories ==> categories[k].id == k && k < nextCategoryId)
    && (forall k :: k in resources ==> resources[k].id == k && k < nextResourceId)
    && RatingsMatch(resources, ratings)
    && LikesMatch(resources, likes)
  }

  /** A rating keeps the tables valid once the resource's figures are recomputed from its new rows. */
  lemma RateKeepsTablesValid(categories: map<nat, ResourceCategory>, resources: map<nat, Resource>, likes: set<(nat, nat)>,
                             ratings: map<nat, seq<Rating>>, nextCategoryId: nat, nextResourceId: nat, rid: nat, rows: seq<Rating>)
    requires TablesValid(categories, resources, likes, ratings, nextCategoryId, nextResourceId)
    requires rid in resources && ValidRows(rows)
    ensures TablesValid(categories, resources[rid := resources[rid].(ratingAverage := Mean(rows), ratingCount := |rows|)],
                        likes, ratings[rid := rows], nextCategoryId, nextResourceId)
  {
    var res := resources[rid].(ratingAverage := Mean(rows), ratingCount := |rows|);
    RatingsMatchAfterRate(resources, ratings, rid, rows);
    LikesMatchAfterEdit(resources, likes, rid, res);
  }

  /** A new resource under a fresh id, with no likes and no ratings, keeps the figures matching. */
  lemma InsertKeepsFiguresMatching(resources: map<nat, Resource>, likes: set<(nat, nat)>, ratings: map<nat, seq<Rating>>,
                                   r: Resource)
    requires RatingsMatch(resources, ratings) && LikesMatch(resources, likes) && r.id !in resources
    requires r.likeCount == 0 && r.ratingCount == 0 && r.ratingAverage == 0.0
    ensures RatingsMatch(resources[r.id := r], ratings) && LikesMatch(resources[r.id := r], likes)
  {
    assert r.id !in ratings;
    assert RowsOf(ratings, r.id) == [];
    assert Likers(likes, r.id) == {};
  }

  /** After an upsert the resource's rows stay valid, their mean lies in 1..5, and a new rater adds one row. */
  lemma RatedFigures(resources: map<nat, Resource>, ratings: map<nat, seq<Rating>>, rid: nat, userId: nat, rating: int,
                     review: Option<string>)
    requires RatingsMatch(resources, ratings) && rid in resources && 1 <= rating <= 5
    ensures var rows := Upsert(RowsOf(ratings, rid), userId, rating, review);
      && ValidRows(rows) && 1.0 <= Mean(rows) <= 5.0
      && |rows| == resources[rid].ratingCount + (if Rated(RowsOf(ratings, rid), userId) then 0 else 1)
  {
    var before := RowsOf(ratings, rid);
    var rows := Upsert(before, userId, rating, review);
    assert ValidRows(before);
    UpsertValid(before, userId, rating, review);
    assert Rating(userId, rating, review) in rows;
    MeanBounds(rows);
  }

  /** Inserting a fresh resource and recounting a category keeps the tables valid under the next id. */
  lemma CreateKeepsTablesValid(categories: map<nat, ResourceCategory>, resources: map<nat, Resource>, likes: set<(nat, nat)>,
                               ratings: map<nat, seq<Rating>>, nextCategoryId: nat, nextResourceId: nat, r: Resource,
                               cats: map<nat, ResourceCategory>)
    requires TablesValid(categories, resources, likes, ratings, nextCategoryId, nextResourceId)
    requires r.id == nextResourceId && r.likeCount == 0 && r.ratingCount == 0 && r.ratingAverage == 0.0
    requires cats.Keys == categories.Keys && forall k :: k in cats ==> cats[k].id == categories[k].id
    ensures TablesValid(cats, resources[r.id := r], likes, ratings, nextCategoryId, nextResourceId + 1)
  {
    InsertKeepsFiguresMatching(resources, likes, ratings, r);
  }

  /** The resource library tables. */
  class ResourceStore {
    var categories: map<nat, ResourceCategory>
    var resources: map<nat, Resource>
    var likes: set<(nat, nat)>
    var ratings: map<nat, seq<Rating>>
    var nextCategoryId: nat
    var nextResourceId: nat

    ghost predicate Valid()
      reads this
    {
      TablesValid(categories, resources, likes, ratings, nextCategoryId, nextResourceId)
    }

    constructor ()
      ensures Valid()
      ensures categories == map[] && resources == map[] && likes == {} && ratings == map[]
    {
      categories, resources, likes, ratings := map[], map[], {}, map[];
      nextCategoryId, nextResourceId := 1, 1;
    }

    /** `create_resource_category`. */
    method CreateResourceCategory(c: ResourceCategoryCreate, userId: nat) returns (r: ResourceCategory)
      requires Valid()
      modifies this
      ensures Valid()
      ensures r.id !in old(categories) && categories == old(categories)[r.id := r]
      ensures r.name == c.name && r.slug == c.slug && r.resourceCount == 0 && r.createdBy == userId
      ensures resources == old(resources) && likes == old(likes) && ratings == old(ratings)
    {
      r := ResourceCategory(nextCategoryId, c.name, c.slug, c.organizationId, c.isGlobal, c.isActive, c.sortOrder, 0, userId);
      categories := categories[r.id := r];
      nextCategoryId := nextCategoryId + 1;
    }

    /**
     * `create_resource`: the row with its title slug, approved, with zero
     * counters; the category, when it exists, counts one more resource.
     */
    method CreateResource(c: ResourceCreate, userId: nat) returns (r: Resource)
      requires Valid()
      modifies this
      ensures Valid()
      ensures r.id !in old(resources) && resources == old(resources)[r.id := r]
      ensures r.slug == TitleSlug(c.title) && r.title == c.title && r.authorId == userId && r.categoryId == c.categoryId
      ensures r.organizationId == c.organizationId && r.tags == c.tags && r.fileUrl == c.fileUrl && r.isApproved
      ensures r.viewCount == 0 && r.downloadCount == 0 && r.likeCount == 0 && r.ratingCount == 0
      ensures c.categoryId in old(categories) ==>
                categories == old(categories)[c.categoryId := old(categories)[c.categoryId].(resourceCount := old(categories)[c.categoryId].resourceCount + 1)]
      ensures c.categoryId !in old(categories) ==> categories == old(categories)
      ensures likes == old(likes) && ratings == old(ratings)
    {
      r := Resource(nextResourceId, c.title, TitleSlug(c.title), c.description, c.resourceType, c.categoryId,
                    c.fileUrl, c.externalUrl, c.organizationId, c.isPublic, c.tags, userId, true, false,
                    0, 0, 0, 0.0, 0, None, None, None);
      var cats := categories;
      if c.categoryId in categories {
        var cat := categories[c.categoryId];
        cats := categories[c.categoryId := cat.(resourceCount := cat.resourceCount + 1)];
      }
      CreateKeepsTablesValid(categories, resources, likes, ratings, nextCategoryId, nextResourceId, r, cats);
      StoreResource(r, cats);
    }

    /** The creation step's writes: the new row, the next id and the categories with the updated count. */
    method StoreResource(r: Resource, cats: map<nat, ResourceCategory>)
      modifies this
      ensures resources == old(resources)[r.id := r] && nextResourceId == old(nextResourceId) + 1 && categories == cats
      ensures likes == old(likes) && ratings == old(ratings) && nextCategoryId == old(nextCategoryId)
    {
      resources := resources[r.id := r];
      nextResourceId := nextResourceId + 1;
      categories := cats;
    }

    /** The upload's file name, size and media type recorded on the new row. */
    method SetFileMetadata(rid: nat, fileName: string, fileSize: nat, mimeType: Option<string>)
      requires Valid() && rid in resources
      modifies this
      ensures Valid()
      ensures resources == old(resources)[rid := old(resources)[rid].(fileName := Some(fileName), fileSize := Some(fileSize), mimeType := mimeType)]
      ensures categories == old(categories) && likes == old(likes) && ratings == old(ratings)
    {
      resources := resources[rid := resources[rid].(fileName := Some(fileName), fileSize := Some(fileSize), mimeType := mimeType)];
    }

    /** `increment_resource_views`: one more view for an existing resource, nothing otherwise. */
    method IncrementResourceViews(rid: nat)
      requires Valid()
      modifies this
      ensures Valid()
      ensures rid in old(resources) ==> resources == old(resources)[rid := old(resources)[rid].(viewCount := old(resources)[rid].viewCount + 1)]
      ensures rid !in old(resources) ==> resources == old(resources)
      ensures categories == old(categories) && likes == old(likes) && ratings == old(ratings)
    {
      if rid in resources {
        resources := resources[rid := resources[rid].(viewCount := resources[rid].viewCount + 1)];
      }
    }

    /** `increment_resource_downloads`: one more download for an existing resource, nothing otherwise. */
    method IncrementResourceDownloads(rid: nat)
      requires Valid()
      modifies this
      ensures Valid()
      ensures rid in old(resources) ==> resources == old(resources)[rid := old(resources)[rid].(downloadCount := old(resources)[rid].downloadCount + 1)]
      ensures rid !in old(resources) ==> resources == old(resources)
      ensures categories == old(categories) && likes == old(likes) && ratings == old(ratings)
    {
      if rid in resources {
        resources := resources[rid := resources[rid].(downloadCount := resources[rid].downloadCount + 1)];
      }
    }

    /**
     * The like toggle of `like_resource`, on a resource that exists: true iff
     * the user had not liked it; the count keeps matching the like rows.
     */
    method ToggleResourceLike(rid: nat, userId: nat) returns (liked: bool)
      requires Valid() && rid in resources
      modifies this
      ensures Valid()
      ensures liked <==> (rid, userId) !in old(likes)
      ensures likes == ToggleRows(old(likes), rid, userId).0
      ensures resources == old(resources)[rid := old(resources)[rid].(likeCount := CountAfterToggle(old(resources)[rid].likeCount, liked))]
      ensures resources[rid].likeCount == |Likers(likes, rid)|
      ensures categories == old(categories) && ratings == old(ratings)
    {
      var toggled := ToggleRows(likes, rid, userId);
      ToggleKeepsCount(likes, rid, userId, resources[rid].likeCount);
      forall other | other != rid
        ensures Likers(toggled.0, other) == Likers(likes, other)
      {
        ToggleIsLocal(likes, rid, userId, other);
      }
      likes, liked := toggled.0, toggled.1;
      resources := resources[rid := resources[rid].(likeCount := CountAfterToggle(resources[rid].likeCount, liked))];
    }

    /**
     * The rating steps of `rate_resource`, on a resource that exists: the
     * user's rating is inserted or replaced, and the resource's rating count
     * and mean are recomputed from its rows.
     */
    method RateResource(rid: nat, userId: nat, rating: int, review: Option<string>) returns (r: Rating)
      requires Valid() && rid in resources && 1 <= rating <= 5
      modifies this
      ensures Valid()
      ensures r == Rating(userId, rating, review)
      ensures ratings == old(ratings)[rid := Upsert(RowsOf(old(ratings), rid), userId, rating, review)]
      ensures resources == old(resources)[rid := old(resources)[rid].(
                ratingAverage := Mean(RowsOf(ratings, rid)), ratingCount := |RowsOf(ratings, rid)|)]
      ensures resources[rid].ratingCount == old(resources)[rid].ratingCount + (if Rated(RowsOf(old(ratings), rid), userId) then 0 else 1)
      ensures 1.0 <= resources[rid].ratingAverage <= 5.0
      ensures categories == old(categories) && likes == old(likes)
      ensures nextCategoryId == old(nextCategoryId) && nextResourceId == old(nextResourceId)
    {
      var rows := Upsert(RowsOf(ratings, rid), userId, rating, review);
      RatedFigures(resources, ratings, rid, userId, rating, review);
      var res := resources[rid].(ratingAverage := Mean(rows), ratingCount := |rows|);
      RateKeepsTablesValid(categories, resources, likes, ratings, nextCategoryId, nextResourceId, rid, rows);
      r := Rating(userId, rating, review);
      StoreRating(rid, rows, res);
    }

    /** The rating step's writes: the resource's rows and its recomputed row. */
    method StoreRating(rid: nat, rows: seq<Rating>, res: Resource)
      modifies this
      ensures ratings == old(ratings)[rid := rows] && resources == old(resources)[rid := res]
      ensures categories == old(categories) && likes == old(likes)
      ensures nextCategoryId == old(nextCategoryId) && nextResourceId == old(nextResourceId)
    {
      ratings := ratings[rid := rows];
      resources := resources[rid := res];
    }
  }
}

/**
 * The forum endpoints (backend/app/api/v1/forums.py): the admin gate on
 * categories, the moderator-only and locked-topic rules, the author-or-admin
 * rule for edits, the view count and the like toggles.
 */
module ForumsApi {
  import opened Common
  import opened UserModel
  import opened Deps
  import opened Community

  /** The request-body limits of the category schemas (422 past them). */
  function ValidateCategoryCreate(c: CategoryCreate): (r: Option<HttpError>)
    ensures r.None? <==> |c.name| <= 100 && |c.slug| <= 100
    ensures r.Some? ==> r.value == Unprocessable
  {
    if |c.name| > 100 || |c.slug| > 100 then Some(Unprocessable) else None
  }

  /** The request-body limit of `ForumTopicCreate` (422 past it). */
  function ValidateTopicCreate(t: TopicCreate): (r: Option<HttpError>)
    ensures r.None? <==> |t.title| <= MaxSlugLength
    ensures r.Some? ==> r.value == Unprocessable
  {
    if |t.title| > MaxSlugLength then Some(Unprocessable) else None
  }

  /** `create_category`: a body within its limits, then the admin gate (403). */
  method CreateCategory(s: ForumStore, caller: User, c: CategoryCreate) returns (r: Result<ForumCategory>)
    requires s.Valid()
    modifies s
    ensures s.Valid()
    ensures r.Fail? <==> ValidateCategoryCreate(c).Some? || !IsAdmin(caller.role)
    ensures r.Fail? ==> s.categories == old(s.categories)
    ensures r.Fail? && ValidateCategoryCreate(c).None? ==> r.error == Forbidden
    ensures r.Ok? ==> r.value.id !in old(s.categories) && s.categories == old(s.categories)[r.value.id := r.value]
                      && r.value.createdBy == caller.id && r.value.topicCount == 0
  {
    var invalid := ValidateCategoryCreate(c);
    if invalid.Some? {
      return Fail(invalid.value);
    }
    var gate := AdminRoleNameGate(caller);
    if gate.Fail? {
      return Fail(gate.error);
    }
    var created := s.CreateForumCategory(c, caller.id);
    r := Ok(created);
  }

  /** `update_category`: 403 before anything else, then 404 for a missing id. */
  method UpdateCategory(s: ForumStore, caller: User, id: nat, u: CategoryUpdate) returns (r: Result<ForumCategory>)
    requires s.Valid()
    modifies s
    ensures s.Valid()
    ensures r.Fail? <==> !IsAdmin(caller.role) || id !in old(s.categories)
    ensures r.Fail? ==> s.categories == old(s.categories)
    ensures !IsAdmin(caller.role) ==> r == Fail(Forbidden)
    ensures IsAdmin(caller.role) && id !in old(s.categories) ==> r == Fail(NotFound)
    ensures r.Ok? ==> r.value == ApplyCategoryUpdate(old(s.categories)[id], u) && s.categories == old(s.categories)[id := r.value]
  {
    var gate := AdminRoleNameGate(caller);
    if gate.Fail? {
      return Fail(gate.error);
    }
    var updated := s.UpdateForumCategory(id, u);
    if updated.None? {
      return Fail(NotFound);
    }
    r := Ok(updated.value);
  }

  /**
   * `delete_category`: 403 before anything else, then 404 for a missing id;
   * a category that topics still refer to is kept and the call fails with 500.
   */
  method DeleteCategory(s: ForumStore, caller: User, id: nat) returns (r: Result<()>)
    requires s.Valid()
    modifies s
    ensures s.Valid()
    ensures r.Ok? <==> IsAdmin(caller.role) && id in old(s.categories) && !HasTopics(old(s.topics), id)
    ensures !IsAdmin(caller.role) ==> r == Fail(Forbidden)
    ensures IsAdmin(caller.role) && id !in old(s.categories) ==> r == Fail(NotFound)
    ensures IsAdmin(caller.role) && id in old(s.categories) && HasTopics(old(s.topics), id) ==> r == Fail(ServerError)
    ensures s.categories == if r.Ok? then old(s.categories) - {id} else old(s.categories)
    ensures s.topics == old(s.topics)
  {
    var gate := AdminRoleNameGate(caller);
    if gate.Fail? {
      return Fail(gate.error);
    }
    var deleted := s.DeleteForumCategory(id);
    match deleted
    case Fail(e) => r := Fail(e);
    case Ok(found) => r := if found then Ok(()) else Fail(NotFound);
  }

  /**
   * The checks of `create_topic`: the body's limits (422), the category must
   * exist (404), and a moderator-only category takes topics from admins only (403).
   */
  function TopicCreateCheck(categories: map<nat, ForumCategory>, caller: User, t: TopicCreate): (r: Option<HttpError>)
    ensures r.None? <==> |t.title| <= MaxSlugLength && t.categoryId in categories
                         && (categories[t.categoryId].moderatorOnly ==> IsAdmin(caller.role))
    ensures r == Some(Forbidden) <==> |t.title| <= MaxSlugLength && t.categoryId in categories
                                      && categories[t.categoryId].moderatorOnly && !IsAdmin(caller.role)
    ensures r == Some(NotFound) <==> |t.title| <= MaxSlugLength && t.categoryId !in categories
  {
    if ValidateTopicCreate(t).Some? then Some(Unprocessable)
    else if t.categoryId !in categories then Some(NotFound)
    else if categories[t.categoryId].moderatorOnly && AdminRoleNameGate(caller).Fail? then Some(Forbidden)
    else None
  }

  /** `create_topic`: after the checks, the topic is created and its category counts it. */
  method CreateTopic(s: ForumStore, caller: User, t: TopicCreate, now: int) returns (r: Result<Topic>)
    requires s.Valid()
    modifies s
    ensures s.Valid()
    ensures r.Fail? <==> TopicCreateCheck(old(s.categories), caller, t).Some?
    ensures r.Fail? ==> r.error == TopicCreateCheck(old(s.categories), caller, t).value
                        && s.topics == old(s.topics) && s.categories == old(s.categories)
    ensures r.Ok? ==> r.value.id !in old(s.topics) && s.topics == old(s.topics)[r.value.id := r.value]
                      && r.value.authorId == caller.id && r.value.slug == TitleSlug(t.title)
                      && t.categoryId in s.categories && s.categories[t.categoryId].topicCount == old(s.categories)[t.categoryId].topicCount + 1
  {
    var check := TopicCreateCheck(s.categories, caller, t);
    if check.Some? {
      return Fail(check.value);
    }
    assert t.categoryId in s.categories;
    var created := s.CreateForumTopic(t, caller.id, now);
    r := Ok(created);
  }

  /**
   * `get_topic`: 404 for a missing id; otherwise the view count goes up by one
   * and the topic is answered as the session reloads it after the commit, with
   * the new count.
   */
  method GetTopic(s: ForumStore, id: nat) returns (r: Result<Topic>)
    requires s.Valid()
    modifies s
    ensures s.Valid()
    ensures r.Fail? <==> id !in old(s.topics)
    ensures r.Fail? ==> r.error == NotFound && s.topics == old(s.topics)
    ensures r.Ok? ==> r.value == old(s.topics)[id].(viewCount := old(s.topics)[id].viewCount + 1)
                      && s.topics == old(s.topics)[id := r.value]
    ensures s.categories == old(s.categories) && s.posts == old(s.posts)
  {
    if id !in s.topics {
      return Fail(NotFound);
    }
    s.IncrementTopicViews(id);
    r := Ok(s.topics[id]);
  }

  /** Edits are allowed to the author and to admins. */
  predicate MayEdit(authorId: nat, caller: User)
  {
    authorId == caller.id || IsAdmin(caller.role)
  }

  /** The checks of `update_topic`: 404 for a missing id, 403 unless author or admin, 422 for a long title. */
  function TopicEditCheck(topics: map<nat, Topic>, caller: User, id: nat, u: TopicUpdate): (r: Option<HttpError>)
    ensures r.None? <==> (u.title.Some? ==> |u.title.value| <= MaxSlugLength) && id in topics && MayEdit(topics[id].authorId, caller)
    ensures r == Some(NotFound) <==> (u.title.Some? ==> |u.title.value| <= MaxSlugLength) && id !in topics
  {
    if u.title.Some? && |u.title.value| > MaxSlugLength then Some(Unprocessable)
    else if id !in topics then Some(NotFound)
    else if topics[id].authorId != caller.id && AdminRoleNameGate(caller).Fail? then Some(Forbidden)
    else None
  }

  /** `update_topic`. */
  method UpdateTopic(s: ForumStore, caller: User, id: nat, u: TopicUpdate, now: int) returns (r: Result<Topic>)
    requires s.Valid()
    modifies s
    ensures s.Valid()
    ensures r.Fail? <==> TopicEditCheck(old(s.topics), caller, id, u).Some?
    ensures r.Fail? ==> r.error == TopicEditCheck(old(s.topics), caller, id, u).value && s.topics == old(s.topics)
    ensures r.Ok? ==> r.value == ApplyTopicUpdate(old(s.topics)[id], u, now) && s.topics == old(s.topics)[id := r.value]
  {
    var check := TopicEditCheck(s.topics, caller, id, u);
    if check.Some? {
      return Fail(check.value);
    }
    var updated := s.UpdateForumTopic(id, u, now);
    r := Ok(updated.value);
  }

  /** `like_topic`: 404 for a missing topic; otherwise the toggle. */
  method LikeTopic(s: ForumStore, caller: User, id: nat) returns (r: Result<bool>)
    requires s.Valid()
    modifies s
    ensures s.Valid()
    ensures r.Fail? <==> id !in old(s.topics)
    ensures r.Fail? ==> r.error == NotFound && s.topicLikes == old(s.topicLikes) && s.topics == old(s.topics)
    ensures r.Ok? ==> (r.value <==> (id, caller.id) !in old(s.topicLikes))
                      && s.topicLikes == ToggleRows(old(s.topicLikes), id, caller.id).0
                      && id in s.topics && s.topics[id].likeCount == CountAfterToggle(old(s.topics)[id].likeCount, r.value)
  {
    if id !in s.topics {
      return Fail(NotFound);
    }
    var liked := s.ToggleTopicLike(id, caller.id);
    r := Ok(liked);
  }

  /** The checks of `create_post`: the topic must exist (404) and not be locked (403). */
  function PostCreateCheck(topics: map<nat, Topic>, topicId: nat): (r: Option<HttpError>)
    ensures r.None? <==> topicId in topics && !topics[topicId].isLocked
    ensures r == Some(NotFound) <==> topicId !in topics
  {
    if topicId !in topics then Some(NotFound)
    else if topics[topicId].isLocked then Some(Forbidden)
    else None
  }

  /** `create_post`: the topic in the path replaces the one in the body. */
  method CreatePost(s: ForumStore, caller: User, topicId: nat, p: PostCreate, now: int) returns (r: Result<Post>)
    requires s.Valid()
    modifies s
    ensures s.Valid()
    ensures r.Fail? <==> PostCreateCheck(old(s.topics), topicId).Some?
    ensures r.Fail? ==> r.error == PostCreateCheck(old(s.topics), topicId).value
                        && s.posts == old(s.posts) && s.topics == old(s.topics)
    ensures r.Ok? ==> r.value.topicId == topicId && r.value.authorId == caller.id && r.value.content == p.content
                      && r.value.id !in old(s.posts) && s.posts == old(s.posts)[r.value.id := r.value]
                      && topicId in s.topics && s.topics[topicId].replyCount == old(s.topics)[topicId].replyCount + 1
                      && s.topics[topicId].lastPostBy == caller.id && s.topics[topicId].lastPostAt == now
  {
    var check := PostCreateCheck(s.topics, topicId);
    if check.Some? {
      return Fail(check.value);
    }
    var created := s.CreateForumPost(p.(topicId := topicId), caller.id, now);
    r := Ok(created);
  }

  /** `update_post`: 404 for a missing id, 403 unless author or admin. */
  method UpdatePost(s: ForumStore, caller: User, id: nat, u: PostUpdate, now: int) returns (r: Result<Post>)
    requires s.Valid()
    modifies s
    ensures s.Valid()
    ensures r.Fail? <==> id !in old(s.posts) || !MayEdit(old(s.posts)[id].authorId, caller)
    ensures id !in old(s.posts) ==> r == Fail(NotFound)
    ensures r.Fail? ==> s.posts == old(s.posts) && (id in old(s.posts) ==> r.error == Forbidden)
    ensures r.Ok? ==> r.value == ApplyPostUpdate(old(s.posts)[id], u, caller.id, now) && s.posts == old(s.posts)[id := r.value]
  {
    if id !in s.posts {
      return Fail(NotFound);
    }
    if s.posts[id].authorId != caller.id && AdminRoleNameGate(caller).Fail? {
      return Fail(Forbidden);
    }
    var updated := s.UpdateForumPost(id, u, caller.id, now);
    r := Ok(updated.value);
  }

  /** `like_post`: 404 for a missing post; otherwise the toggle. */
  method LikePost(s: ForumStore, caller: User, id: nat) returns (r: Result<bool>)
    requires s.Valid()
    modifies s
    ensures s.Valid()
    ensures r.Fail? <==> id !in old(s.posts)
    ensures r.Fail? ==> r.error == NotFound && s.postLikes == old(s.postLikes) && s.posts == old(s.posts)
    ensures r.Ok? ==> (r.value <==> (id, caller.id) !in old(s.postLikes))
                      && s.postLikes == ToggleRows(old(s.postLikes), id, caller.id).0
                      && id in s.posts && s.posts[id].likeCount == CountAfterToggle(old(s.posts)[id].likeCount, r.value)
  {
    if id !in s.posts {
      return Fail(NotFound);
    }
    var liked := s.TogglePostLike(id, caller.id);
    r := Ok(liked);
  }
}

/**
 * Forum, resource-library and follow rows and their CRUD operations
 * (backend/app/crud/community.py): the title slug, the counters kept on
 * categories and topics, the like toggles and the follow relation.
 */
module Community {
  import opened Common
  import opened Text

  /** The longest slug the topic and resource columns hold. */
  const MaxSlugLength: nat := 255

  /** `.replace(" ", "-")`. */
  function DashSpaces(s: string): (r: string)
    ensures |r| == |s|
    ensures forall i :: 0 <= i < |s| ==> r[i] == if s[i] == ' ' then '-' else s[i]
  {
    if s == [] then [] else [if s[0] == ' ' then '-' else s[0]] + DashSpaces(s[1..])
  }

  /** `.replace("'", "")`: every apostrophe removed, the rest kept in order. */
  function DropApostrophes(s: string): (r: string)
    ensures |r| <= |s| && '\'' !in r
    ensures forall c :: c in r ==> c in s
    ensures '\'' !in s ==> r == s
  {
    if s == [] then []
    else (if s[0] == '\'' then [] else [s[0]]) + DropApostrophes(s[1..])
  }

  /**
   * The slug `create_forum_topic` and `create_resource` store: the title
   * lowercased, spaces turned into dashes, apostrophes removed, and cut at
   * 255 characters.
   */
  function TitleSlug(title: string): (r: string)
    ensures |r| <= MaxSlugLength
    ensures ' ' !in r && '\'' !in r
    ensures forall c :: c in r ==> !('A' <= c <= 'Z')
  {
    var s := DropApostrophes(DashSpaces(Lower(title)));
    if |s| <= MaxSlugLength then s
    else
      var t := s[..MaxSlugLength];
      assert forall c :: c in t ==> c in s;
      t
  }

  /** A title already in slug form is its own slug. */
  lemma {:induction false} SlugOfSlug(s: string)
    requires |s| <= MaxSlugLength && ' ' !in s && '\'' !in s
    requires forall c :: c in s ==> !('A' <= c <= 'Z')
    ensures TitleSlug(s) == s
  {
    assert Lower(s) == s by {
      forall i | 0 <= i < |s| ensures Lower(s)[i] == s[i] {
        assert s[i] in s;
      }
    }
    assert DashSpaces(s) == s by {
      forall i | 0 <= i < |s| ensures DashSpaces(s)[i] == s[i] {
        assert s[i] in s;
      }
    }
  }

  /** Taking the slug twice changes nothing. */
  lemma SlugIdempotent(title: string)
    ensures TitleSlug(TitleSlug(title)) == TitleSlug(title)
  {
    SlugOfSlug(TitleSlug(title));
  }

  // ---------------------------------------------------------------------
  // Likes, shared by topics, posts and resources

  /** The users who like `target`, in a set of (target, user) like rows. */
  function Likers(likes: set<(nat, nat)>, target: nat): set<nat>
  {
    set p | p in likes && p.0 == target :: p.1
  }

  /**
   * The like rows after a toggle by `user` on `target`: the row is removed
   * when it existed and added when it did not.  `liked` reports which.
   */
  function ToggleRows(likes: set<(nat, nat)>, target: nat, user: nat): (r: (set<(nat, nat)>, bool))
    ensures r.1 <==> (target, user) !in likes
    ensures r.1 ==> r.0 == likes + {(target, user)}
    ensures !r.1 ==> r.0 == likes - {(target, user)}
  {
    if (target, user) in likes then (likes - {(target, user)}, false) else (likes + {(target, user)}, true)
  }

  /** The stored count after a toggle: up by one on a like, down by one but not below zero on an unlike. */
  function CountAfterToggle(count: nat, liked: bool): (c: nat)
    ensures liked ==> c == count + 1
    ensures !liked ==> c == if count > 0 then count - 1 else 0
  {
    if liked then count + 1 else if count > 0 then count - 1 else 0
  }

  /** A count that matched the like rows still matches them after a toggle. */
  lemma ToggleKeepsCount(likes: set<(nat, nat)>, target: nat, user: nat, count: nat)
    requires count == |Likers(likes, target)|
    ensures var (after, liked) := ToggleRows(likes, target, user);
            CountAfterToggle(count, liked) == |Likers(after, target)|
  {
    var (after, liked) := ToggleRows(likes, target, user);
    if liked {
      assert Likers(after, target) == Likers(likes, target) + {user};
      assert user !in Likers(likes, target);
    } else {
      assert Likers(after, target) == Likers(likes, target) - {user};
      assert user in Likers(likes, target);
    }
  }

  /** A toggle leaves the likes of every other target alone. */
  lemma ToggleIsLocal(likes: set<(nat, nat)>, target: nat, user: nat, other: nat)
    requires other != target
    ensures Likers(ToggleRows(likes, target, user).0, other) == Likers(likes, other)
  {
    var after := ToggleRows(likes, target, user).0;
    assert forall p :: p in after && p.0 == other <==> p in likes && p.0 == other;
  }

  /** Two toggles by the same user restore both the rows and the count. */
  lemma ToggleTwice(likes: set<(nat, nat)>, target: nat, user: nat, count: nat)
    requires count == |Likers(likes, target)|
    ensures var (once, liked) := ToggleRows(likes, target, user);
            var (twice, liked2) := ToggleRows(once, target, user);
            twice == likes && liked2 == !liked && CountAfterToggle(CountAfterToggle(count, liked), liked2) == count
  {
    var (once, liked) := ToggleRows(likes, target, user);
    ToggleKeepsCount(likes, target, user, count);
    if liked {
      assert count + 1 > 0;
    } else {
      assert count > 0 by {
        assert user in Likers(likes, target);
      }
    }
  }

  // ---------------------------------------------------------------------
  // Forum rows

  datatype ForumCategory = ForumCategory(
    id: nat,
    name: string,
    slug: string,
    description: Option<string>,
    sortOrder: int,
    isActive: bool,
    organizationId: Option<int>,
    isGlobal: bool,
    requiresApproval: bool,
    moderatorOnly: bool,
    topicCount: nat,
    postCount: nat,
    createdBy: nat)

  datatype CategoryCreate = CategoryCreate(
    name: string,
    slug: string,
    description: Option<string>,
    sortOrder: int,
    isActive: bool,
    organizationId: Option<int>,
    isGlobal: bool,
    requiresApproval: bool,
    moderatorOnly: bool)

  /** `ForumCategoryUpdate`; a nullable field takes `Some(None)` for an explicit null. */
  datatype CategoryUpdate = CategoryUpdate(
    name: Option<string>,
    description: Option<Option<string>>,
    sortOrder: Option<int>,
    isActive: Option<bool>,
    requiresApproval: Option<bool>,
    moderatorOnly: Option<bool>)

  function ApplyCategoryUpdate(c: ForumCategory, u: CategoryUpdate): (r: ForumCategory)
    ensures r.id == c.id && r.slug == c.slug && r.organizationId == c.organizationId && r.isGlobal == c.isGlobal
    ensures r.topicCount == c.topicCount && r.postCount == c.postCount && r.createdBy == c.createdBy
    ensures u == CategoryUpdate(None, None, None, None, None, None) ==> r == c
  {
    c.(name := Supplied(u.name, c.name),
       description := Supplied(u.description, c.description),
       sortOrder := Supplied(u.sortOrder, c.sortOrder),
       isActive := Supplied(u.isActive, c.isActive),
       requiresApproval := Supplied(u.requiresApproval, c.requiresApproval),
       moderatorOnly := Supplied(u.moderatorOnly, c.moderatorOnly))
  }

  datatype Topic = Topic(
    id: nat,
    title: string,
    slug: string,
    content: string,
    categoryId: nat,
    organizationId: Option<int>,
    tags: Option<seq<string>>,
    authorId: nat,
    isPinned: bool,
    isLocked: bool,
    isApproved: bool,
    isFeatured: bool,
    viewCount: nat,
    replyCount: nat,
    likeCount: nat,
    lastPostAt: int,
    lastPostBy: nat,
    updatedAt: Option<int>)

  datatype TopicCreate = TopicCreate(
    title: string,
    content: string,
    categoryId: nat,
    organizationId: Option<int>,
    tags: Option<seq<string>>)

  datatype TopicUpdate = TopicUpdate(
    title: Option<string>,
    content: Option<string>,
    categoryId: Option<nat>,
    tags: Option<Option<seq<string>>>,
    isPinned: Option<bool>,
    isLocked: Option<bool>)

  /** `update_forum_topic` on one row: the supplied fields, and the edit time; the slug stays. */
  function ApplyTopicUpdate(t: Topic, u: TopicUpdate, now: int): (r: Topic)
    ensures r.id == t.id && r.slug == t.slug && r.authorId == t.authorId && r.organizationId == t.organizationId
    ensures r.viewCount == t.viewCount && r.replyCount == t.replyCount && r.likeCount == t.likeCount
    ensures r.updatedAt == Some(now)
    ensures u.title.None? ==> r.title == t.title
    ensures u.isLocked.None? ==> r.isLocked == t.isLocked
  {
    t.(title := Supplied(u.title, t.title),
       content := Supplied(u.content, t.content),
       categoryId := Supplied(u.categoryId, t.categoryId),
       tags := Supplied(u.tags, t.tags),
       isPinned := Supplied(u.isPinned, t.isPinned),
       isLocked := Supplied(u.isLocked, t.isLocked),
       updatedAt := Some(now))
  }

  datatype Post = Post(
    id: nat,
    content: string,
    topicId: nat,
    authorId: nat,
    parentPostId: Option<nat>,
    isSolution: bool,
    likeCount: nat,
    updatedAt: Option<int>,
    editedAt: Option<int>,
    editedBy: Option<nat>)

  datatype PostCreate = PostCreate(content: string, topicId: nat, parentPostId: Option<nat>)

  datatype PostUpdate = PostUpdate(content: Option<string>, isSolution: Option<bool>)

  /** `update_forum_post` on one row: the supplied fields, and who edited it when. */
  function ApplyPostUpdate(p: Post, u: PostUpdate, editor: nat, now: int): (r: Post)
    ensures r.id == p.id && r.topicId == p.topicId && r.authorId == p.authorId && r.likeCount == p.likeCount
    ensures r.editedAt == Some(now) && r.editedBy == Some(editor) && r.updatedAt == Some(now)
    ensures u.content.None? ==> r.content == p.content
  {
    p.(content := Supplied(u.content, p.content),
       isSolution := Supplied(u.isSolution, p.isSolution),
       updatedAt := Some(now), editedAt := Some(now), editedBy := Some(editor))
  }

  /** Some topic still refers to the category. */
  predicate HasTopics(topics: map<nat, Topic>, categoryId: nat)
  {
    exists t :: t in topics && topics[t].categoryId == categoryId
  }

  /** The forum tables. */
  class ForumStore {
    var categories: map<nat, ForumCategory>
    var topics: map<nat, Topic>
    var posts: map<nat, Post>
    var topicLikes: set<(nat, nat)>
    var postLikes: set<(nat, nat)>
    var nextCategoryId: nat
    var nextTopicId: nat
    var nextPostId: nat

    ghost predicate Valid()
      reads this
    {
      (forall k :: k in categories ==> categories[k].id == k && k < nextCategoryId)
      && (forall k :: k in topics ==> topics[k].id == k && k < nextTopicId)
      && (forall k :: k in posts ==> posts[k].id == k && k < nextPostId)
      && nextCategoryId >= 1 && nextTopicId >= 1 && nextPostId >= 1
    }

    constructor ()
      ensures Valid()
      ensures categories == map[] && topics == map[] && posts == map[] && topicLikes == {} && postLikes == {}
    {
      categories, topics, posts := map[], map[], map[];
      topicLikes, postLikes := {}, {};
      nextCategoryId, nextTopicId, nextPostId := 1, 1, 1;
    }

    /** `create_forum_category`: a new row with zero counters. */
    method CreateForumCategory(c: CategoryCreate, userId: nat) returns (r: ForumCategory)
      requires Valid()
      modifies this
      ensures Valid()
      ensures r.id !in old(categories) && categories == old(categories)[r.id := r]
      ensures r.name == c.name && r.moderatorOnly == c.moderatorOnly && r.organizationId == c.organizationId
      ensures r.topicCount == 0 && r.postCount == 0 && r.createdBy == userId
      ensures topics == old(topics) && posts == old(posts)
      ensures topicLikes == old(topicLikes) && postLikes == old(postLikes)
    {
      r := ForumCategory(nextCategoryId, c.name, c.slug, c.description, c.sortOrder, c.isActive, c.organizationId,
                         c.isGlobal, c.requiresApproval, c.moderatorOnly, 0, 0, userId);
      categories := categories[r.id := r];
      nextCategoryId := nextCategoryId + 1;
    }

    /** `update_forum_category`: `None`, and no change, for a missing id. */
    method UpdateForumCategory(id: nat, u: CategoryUpdate) returns (r: Option<ForumCategory>)
      requires Valid()
      modifies this
      ensures Valid()
      ensures r.None? <==> id !in old(categories)
      ensures r.None? ==> categories == old(categories)
      ensures r.Some? ==> r.value == ApplyCategoryUpdate(old(categories)[id], u) && categories == old(categories)[id := r.value]
      ensures topics == old(topics) && posts == old(posts)
    {
      if id !in categories {
        return None;
      }
      var c := ApplyCategoryUpdate(categories[id], u);
      categories := categories[id := c];
      r := Some(c);
    }

    /**
     * `delete_forum_category`: `false`, and no change, for a missing id.
     * The relationship to the topics has no delete cascade, so deleting a
     * category that topics still refer to makes the session null their NOT
     * NULL `category_id`; the commit fails and the category is kept.
     */
    method DeleteForumCategory(id: nat) returns (r: Result<bool>)
      requires Valid()
      modifies this
      ensures Valid()
      ensures r == Ok(false) <==> id !in old(categories)
      ensures r.Fail? <==> id in old(categories) && HasTopics(old(topics), id)
      ensures r.Fail? ==> r.error == ServerError
      ensures categories == if r == Ok(true) then old(categories) - {id} else old(categories)
      ensures topics == old(topics) && posts == old(posts)
    {
      if id !in categories {
        return Ok(false);
      }
      if HasTopics(topics, id) {
        return Fail(ServerError);
      }
      categories := categories - {id};
      r := Ok(true);
    }

    /**
     * `create_forum_topic`: a new topic with its title slug, whose author is
     * also its last poster; the category, when it exists, counts one more topic.
     */
    method CreateForumTopic(t: TopicCreate, userId: nat, now: int) returns (r: Topic)
      requires Valid()
      modifies this
      ensures Valid()
      ensures r.id !in old(topics) && topics == old(topics)[r.id := r]
      ensures r.slug == TitleSlug(t.title) && r.title == t.title && r.categoryId == t.categoryId
      ensures r.authorId == userId && r.lastPostBy == userId && r.lastPostAt == now
      ensures r.viewCount == 0 && r.replyCount == 0 && r.likeCount == 0 && !r.isLocked && r.isApproved
      ensures t.categoryId in old(categories) ==>
                categories == old(categories)[t.categoryId := old(categories)[t.categoryId].(topicCount := old(categories)[t.categoryId].topicCount + 1)]
      ensures t.categoryId !in old(categories) ==> categories == old(categories)
      ensures posts == old(posts) && topicLikes == old(topicLikes) && postLikes == old(postLikes)
    {
      r := Topic(nextTopicId, t.title, TitleSlug(t.title), t.content, t.categoryId, t.organizationId, t.tags,
                 userId, false, false, true, false, 0, 0, 0, now, userId, None);
      topics := topics[r.id := r];
      nextTopicId := nextTopicId + 1;
      if t.categoryId in categories {
        var c := categories[t.categoryId];
        categories := categories[t.categoryId := c.(topicCount := c.topicCount + 1)];
      }
    }

    /** `update_forum_topic`: `None`, and no change, for a missing id. */
    method UpdateForumTopic(id: nat, u: TopicUpdate, now: int) returns (r: Option<Topic>)
      requires Valid()
      modifies this
      ensures Valid()
      ensures r.None? <==> id !in old(topics)
      ensures r.None? ==> topics == old(topics)
      ensures r.Some? ==> r.value == ApplyTopicUpdate(old(topics)[id], u, now) && topics == old(topics)[id := r.value]
      ensures categories == old(categories) && posts == old(posts)
    {
      if id !in topics {
        return None;
      }
      var t := ApplyTopicUpdate(topics[id], u, now);
      topics := topics[id := t];
      r := Some(t);
    }

    /** `increment_topic_views`: one more view for an existing topic, nothing otherwise. */
    method IncrementTopicViews(id: nat)
      requires Valid()
      modifies this
      ensures Valid()
      ensures id in old(topics) ==> topics == old(topics)[id := old(topics)[id].(viewCount := old(topics)[id].viewCount + 1)]
      ensures id !in old(topics) ==> topics == old(topics)
      ensures categories == old(categories) && posts == old(posts)
      ensures topicLikes == old(topicLikes) && postLikes == old(postLikes)
    {
      if id in topics {
        topics := topics[id := topics[id].(viewCount := topics[id].viewCount + 1)];
      }
    }

    /**
     * `create_forum_post`: a new post; its topic, when it exists, counts one
     * more reply and records the author and time as its last post, and the
     * topic's category, when it exists, counts one more post.
     */
    method CreateForumPost(p: PostCreate, userId: nat, now: int) returns (r: Post)
      requires Valid()
      modifies this
      ensures Valid()
      ensures r.id !in old(posts) && posts == old(posts)[r.id := r]
      ensures r.content == p.content && r.topicId == p.topicId && r.authorId == userId && r.likeCount == 0
      ensures p.topicId !in old(topics) ==> topics == old(topics) && categories == old(categories)
      ensures p.topicId in old(topics) ==>
                var t := old(topics)[p.topicId];
                topics == old(topics)[p.topicId := t.(replyCount := t.replyCount + 1, lastPostAt := now, lastPostBy := userId)]
                && (t.categoryId in old(categories) ==>
                      categories == old(categories)[t.categoryId := old(categories)[t.categoryId].(postCount := old(categories)[t.categoryId].postCount + 1)])
                && (t.categoryId !in old(categories) ==> categories == old(categories))
      ensures topicLikes == old(topicLikes) && postLikes == old(postLikes)
    {
      r := Post(nextPostId, p.content, p.topicId, userId, p.parentPostId, false, 0, None, None, None);
      posts := posts[r.id := r];
      nextPostId := nextPostId + 1;
      if p.topicId in topics {
        var t := topics[p.topicId];
        topics := topics[p.topicId := t.(replyCount := t.replyCount + 1, lastPostAt := now, lastPostBy := userId)];
        if t.categoryId in categories {
          var c := categories[t.categoryId];
          categories := categories[t.categoryId := c.(postCount := c.postCount + 1)];
        }
      }
    }

    /** `update_forum_post`: `None`, and no change, for a missing id. */
    method UpdateForumPost(id: nat, u: PostUpdate, userId: nat, now: int) returns (r: Option<Post>)
      requires Valid()
      modifies this
      ensures Valid()
      ensures r.None? <==> id !in old(posts)
      ensures r.None? ==> posts == old(posts)
      ensures r.Some? ==> r.value == ApplyPostUpdate(old(posts)[id], u, userId, now) && posts == old(posts)[id := r.value]
      ensures categories == old(categories) && topics == old(topics)
    {
      if id !in posts {
        return None;
      }
      var p := ApplyPostUpdate(posts[id], u, userId, now);
      posts := posts[id := p];
      r := Some(p);
    }

    /**
     * `toggle_topic_like`: true iff the user had not liked the topic; the
     * like row is added or removed and the topic's count, when the topic
     * exists, follows.
     */
    method ToggleTopicLike(topicId: nat, userId: nat) returns (liked: bool)
      requires Valid()
      modifies this
      ensures Valid()
      ensures liked <==> (topicId, userId) !in old(topicLikes)
      ensures topicLikes == ToggleRows(old(topicLikes), topicId, userId).0
      ensures topicId in old(topics) ==>
                topics == old(topics)[topicId := old(topics)[topicId].(likeCount := CountAfterToggle(old(topics)[topicId].likeCount, liked))]
      ensures topicId !in old(topics) ==> topics == old(topics)
      ensures categories == old(categories) && posts == old(posts) && postLikes == old(postLikes)
    {
      var toggled := ToggleRows(topicLikes, topicId, userId);
      topicLikes, liked := toggled.0, toggled.1;
      if topicId in topics {
        topics := topics[topicId := topics[topicId].(likeCount := CountAfterToggle(topics[topicId].likeCount, liked))];
      }
    }

    /** `toggle_post_like`: the same toggle on a post. */
    method TogglePostLike(postId: nat, userId: nat) returns (liked: bool)
      requires Valid()
      modifies this
      ensures Valid()
      ensures liked <==> (postId, userId) !in old(postLikes)
      ensures postLikes == ToggleRows(old(postLikes), postId, userId).0
      ensures postId in old(posts) ==>
                posts == old(posts)[postId := old(posts)[postId].(likeCount := CountAfterToggle(old(posts)[postId].likeCount, liked))]
      ensures postId !in old(posts) ==> posts == old(posts)
      ensures categories == old(categories) && topics == old(topics) && topicLikes == old(topicLikes)
    {
      var toggled := ToggleRows(postLikes, postId, userId);
      postLikes, liked := toggled.0, toggled.1;
      if postId in posts {
        posts := posts[postId := posts[postId].(likeCount := CountAfterToggle(posts[postId].likeCount, liked))];
      }
    }
  }

  // ---------------------------------------------------------------------
  // Follows

  datatype Follow = Follow(id: nat, followerId: nat, followingId: nat)

  /** Whether a follow row for the pair exists. */
  predicate Follows(follows: map<nat, Follow>, follower: nat, following: nat)
  {
    exists k :: k in follows && follows[k].followerId == follower && follows[k].followingId == following
  }

  /** The follow table. */
  class FollowStore {
    var follows: map<nat, Follow>
    var nextFollowId: nat

    /** Rows are keyed by id, and no pair has two rows. */
    ghost predicate Valid()
      reads this
    {
      (forall k :: k in follows ==> follows[k].id == k && k < nextFollowId)
      && (forall j, k :: (j in follows && k in follows && follows[j].followerId == follows[k].followerId
                          && follows[j].followingId == follows[k].followingId) ==> j == k)
    }

    constructor ()
      ensures Valid() && follows == map[]
    {
      follows := map[];
      nextFollowId := 1;
    }

    /** `create_user_follow`: the existing row for the pair, or a new one. */
    method CreateUserFollow(followerId: nat, followingId: nat) returns (r: Follow)
      requires Valid()
      modifies this
      ensures Valid()
      ensures r.followerId == followerId && r.followingId == followingId && r.id in follows && follows[r.id] == r
      ensures Follows(old(follows), followerId, followingId) ==> follows == old(follows)
      ensures !Follows(old(follows), followerId, followingId) ==> r.id !in old(follows) && follows == old(follows)[r.id := r]
    {
      if Follows(follows, followerId, followingId) {
        var k :| k in follows && follows[k].followerId == followerId && follows[k].followingId == followingId;
        return follows[k];
      }
      r := Follow(nextFollowId, followerId, followingId);
      follows := follows[r.id := r];
      nextFollowId := nextFollowId + 1;
    }

    /** `delete_user_follow`: false when the pair has no row; otherwise that row is removed. */
    method DeleteUserFollow(followingId: nat, followerId: nat) returns (deleted: bool)
      requires Valid()
      modifies this
      ensures Valid()
      ensures deleted <==> Follows(old(follows), followerId, followingId)
      ensures !deleted ==> follows == old(follows)
      ensures deleted ==> exists k :: k in old(follows) && old(follows)[k] == Follow(k, followerId, followingId)
                                      && follows == old(follows) - {k}
      ensures !Follows(follows, followerId, followingId)
    {
      if !Follows(follows, followerId, followingId) {
        return false;
      }
      var k :| k in follows && follows[k].followerId == followerId && follows[k].followingId == followingId;
      follows := follows - {k};
      deleted := true;
    }
  }
}

/**
 * The success story endpoints (backend/app/api/v1/success_stories.py):
 * who may read an unapproved story, who may edit or delete one, the admin
 * gates, and the statistics over the stories fetched for an organization.
 * The story queries and writes these handlers call are not part of this
 * model; their outcomes are parameters.
 */
module SuccessStoriesApi {
  import opened Common
  import opened UserModel
  import opened Deps

  /** The story columns the handlers look at; `status` is a plain string column. */
  datatype Story = Story(
    id: nat,
    authorId: nat,
    organizationId: Option<int>,
    status: string,
    isFeatured: bool,
    viewCount: nat,
    likeCount: nat)

  /** An approved story is readable by anyone; any other only by its author or an admin role. */
  predicate CanReadStory(story: Story, caller: User)
  {
    story.status == "approved" || story.authorId == caller.id || HasAdminRoleName(caller.role)
  }

  /** `get_story`: 404 for a missing story, 403 when the caller may not read it. */
  function GetStory(stories: map<nat, Story>, caller: User, id: nat): (r: Result<Story>)
    ensures r.Ok? <==> id in stories && (stories[id].status == "approved" || stories[id].authorId == caller.id
                                         || IsAdmin(caller.role))
    ensures id !in stories ==> r == Fail(NotFound)
    ensures r.Fail? && id in stories ==> r.error == Forbidden
    ensures r.Ok? ==> r.value == stories[id]
  {
    AdminRoleNameIsAdmin(caller.role);
    if id !in stories then Fail(NotFound)
    else if stories[id].status != "approved" && stories[id].authorId != caller.id then
      if !HasAdminRoleName(caller.role) then Fail(Forbidden) else Ok(stories[id])
    else Ok(stories[id])
  }

  /** An approved story can be read by every user, whatever their role. */
  lemma ApprovedStoryIsPublic(stories: map<nat, Story>, caller: User, id: nat)
    requires id in stories && stories[id].status == "approved"
    ensures GetStory(stories, caller, id) == Ok(stories[id])
  {
  }

  /** A story's author can always read it, approved or not. */
  lemma AuthorReadsOwnStory(stories: map<nat, Story>, caller: User, id: nat)
    requires id in stories && stories[id].authorId == caller.id
    ensures GetStory(stories, caller, id).Ok?
  {
  }

  /** The existence and permission checks of `update_story` and `delete_story`: 404, then author or admin (403). */
  function StoryEditGate(stories: map<nat, Story>, caller: User, id: nat): (r: Result<Story>)
    ensures r.Ok? <==> id in stories && (stories[id].authorId == caller.id || IsAdmin(caller.role))
    ensures id !in stories ==> r == Fail(NotFound)
    ensures r.Fail? && id in stories ==> r.error == Forbidden
    ensures r.Ok? ==> r.value == stories[id]
  {
    AdminRoleNameIsAdmin(caller.role);
    if id !in stories then Fail(NotFound)
    else if stories[id].authorId != caller.id && !HasAdminRoleName(caller.role) then Fail(Forbidden)
    else Ok(stories[id])
  }

  /** Whoever may edit a story may also read it. */
  lemma EditorsCanRead(stories: map<nat, Story>, caller: User, id: nat)
    ensures StoryEditGate(stories, caller, id).Ok? ==> GetStory(stories, caller, id).Ok?
  {
  }

  /** `delete_story`: the edit gate, then 400 when the delete reports failure. */
  function DeleteStory(stories: map<nat, Story>, caller: User, id: nat, deleted: bool): (r: Result<()>)
    ensures r.Ok? <==> StoryEditGate(stories, caller, id).Ok? && deleted
    ensures StoryEditGate(stories, caller, id).Fail? ==> r == Fail(StoryEditGate(stories, caller, id).error)
    ensures StoryEditGate(stories, caller, id).Ok? && !deleted ==> r == Fail(BadRequest)
  {
    var gate := StoryEditGate(stories, caller, id);
    if gate.Fail? then Fail(gate.error)
    else if !deleted then Fail(BadRequest)
    else Ok(())
  }

  /** `approve_story` and `get_pending_stories`: admin roles only (403). */
  function StoryAdminGate(caller: User): (r: Result<User>)
    ensures r.Ok? <==> IsAdmin(caller.role)
    ensures r.Fail? ==> r.error == Forbidden
  {
    AdminRoleNameGate(caller)
  }

  /** An author who is not an admin may edit their story but never approve it. */
  lemma AuthorsCannotApprove(stories: map<nat, Story>, caller: User, id: nat)
    requires id in stories && stories[id].authorId == caller.id && !IsAdmin(caller.role)
    ensures StoryEditGate(stories, caller, id).Ok?
    ensures StoryAdminGate(caller) == Fail(Forbidden)
  {
  }

  /** The answer of `get_story_stats`. */
  datatype StoryStats = StoryStats(
    totalStories: nat,
    approvedStories: nat,
    pendingStories: nat,
    featuredStories: nat,
    totalViews: int,
    totalLikes: int)

  /** `get_story_stats` over the stories fetched for the caller's organization (at most 1000 of them). */
  function StoryStatsOf(stories: seq<Story>): (st: StoryStats)
    ensures st.totalStories == |stories|
    ensures st.approvedStories == |set i: nat | i < |stories| && stories[i].status == "approved"|
    ensures st.pendingStories == |set i: nat | i < |stories| && stories[i].status == "pending"|
    ensures st.featuredStories == |set i: nat | i < |stories| && stories[i].isFeatured|
    ensures stories == [] ==> st == StoryStats(0, 0, 0, 0, 0, 0)
    ensures st.approvedStories <= st.totalStories && st.pendingStories <= st.totalStories
    ensures st.featuredStories <= st.totalStories
    ensures st.approvedStories + st.pendingStories <= st.totalStories
    ensures st.totalViews >= 0 && st.totalLikes >= 0
  {
    var approved := (s: Story) => s.status == "approved";
    var pending := (s: Story) => s.status == "pending";
    CountDisjoint(stories, approved, pending);
    SumOfNonNegative(stories, (s: Story) => s.viewCount);
    SumOfNonNegative(stories, (s: Story) => s.likeCount);
    var featured := (s: Story) => s.isFeatured;
    CountWhereIsIndexCount(stories, approved);
    CountWhereIsIndexCount(stories, pending);
    CountWhereIsIndexCount(stories, featured);
    assert IndicesWhere(stories, approved) == set i: nat | i < |stories| && stories[i].status == "approved";
    assert IndicesWhere(stories, pending) == set i: nat | i < |stories| && stories[i].status == "pending";
    assert IndicesWhere(stories, featured) == set i: nat | i < |stories| && stories[i].isFeatured;
    StoryStats(|stories|, CountWhere(stories, approved), CountWhere(stories, pending),
               CountWhere(stories, (s: Story) => s.isFeatured),
               SumOf(stories, (s: Story) => s.viewCount), SumOf(stories, (s: Story) => s.likeCount))
  }

  /** A sum of counters is never negative. */
  lemma {:induction false} SumOfNonNegative(stories: seq<Story>, f: Story -> int)
    requires forall s :: f(s) >= 0
    ensures SumOf(stories, f) >= 0
  {
    if stories != [] {
      SumOfNonNegative(stories[..|stories| - 1], f);
    }
  }

  /** One more fetched story raises the total by one and the views and likes by its own counters. */
  lemma StoryStatsAppend(stories: seq<Story>, s: Story)
    ensures StoryStatsOf(stories + [s]).totalStories == StoryStatsOf(stories).totalStories + 1
    ensures StoryStatsOf(stories + [s]).totalViews == StoryStatsOf(stories).totalViews + s.viewCount
    ensures StoryStatsOf(stories + [s]).totalLikes == StoryStatsOf(stories).totalLikes + s.likeCount
    ensures StoryStatsOf(stories + [s]).approvedStories
            == StoryStatsOf(stories).approvedStories + (if s.status == "approved" then 1 else 0)
  {
    assert (stories + [s])[..|stories + [s]| - 1] == stories;
  }
}

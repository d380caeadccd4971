/**
 * The gamification endpoints (backend/app/api/v1/gamification.py): the
 * leaderboard and the caller's place on it, unlocking, and the
 * organization-wide statistics behind the admin gate.
 */
module GamificationApi {
  import opened Common
  import opened UserModel
  import opened Deps
  import opened Gamification

  /** The leaderboard the my-rank endpoint fetches is cut at this many entries. */
  const MyRankFetchLimit: nat := 1000

  /** `get_points_leaderboard`: `limit` must lie in 1..100 (422 otherwise). */
  function GetPointsLeaderboard(standings: seq<Standing>, limit: int): (r: Result<seq<LeaderboardEntry>>)
    ensures r.Ok? <==> 1 <= limit <= 100
    ensures r.Fail? ==> r.error == Unprocessable
    ensures r.Ok? ==> |r.value| <= limit && |r.value| <= |standings|
    ensures r.Ok? ==> forall i :: 0 <= i < |r.value| ==> r.value[i].rank == i + 1
  {
    if limit < 1 || limit > 100 then Fail(Unprocessable)
    else Ok(Leaderboard(standings, limit))
  }

  /** The answer of the my-rank endpoint. */
  datatype RankAnswer = RankAnswer(rank: Option<nat>, totalPoints: int, totalUsers: nat)

  /**
   * The loop of `get_my_leaderboard_rank`: the 1-based position of the first
   * entry for the caller with that entry's points, or no rank and 0 points.
   */
  method FindRank(board: seq<LeaderboardEntry>, callerId: nat) returns (a: RankAnswer)
    ensures a.totalUsers == |board|
    ensures a.rank.Some? ==> 1 <= a.rank.value <= |board| && board[a.rank.value - 1].userId == callerId
                             && a.totalPoints == board[a.rank.value - 1].totalPoints
                             && forall i :: 0 <= i < a.rank.value - 1 ==> board[i].userId != callerId
    ensures a.rank.None? <==> forall i :: 0 <= i < |board| ==> board[i].userId != callerId
    ensures a.rank.None? ==> a.totalPoints == 0
  {
    var i := 0;
    while i < |board|
      invariant 0 <= i <= |board|
      invariant forall j :: 0 <= j < i ==> board[j].userId != callerId
    {
      if board[i].userId == callerId {
        return RankAnswer(Some(i + 1), board[i].totalPoints, |board|);
      }
      i := i + 1;
    }
    a := RankAnswer(None, 0, |board|);
  }

  /**
   * `get_my_leaderboard_rank`: the caller's place on the leaderboard of the
   * first 1000 entries, which is also the rank that entry carries.
   */
  method GetMyLeaderboardRank(standings: seq<Standing>, caller: User) returns (a: RankAnswer)
    ensures a.totalUsers <= MyRankFetchLimit && a.totalUsers <= |standings|
    ensures a.totalUsers == |Leaderboard(standings, MyRankFetchLimit)|
    ensures a.rank.Some? ==> var board := Leaderboard(standings, MyRankFetchLimit);
                             1 <= a.rank.value <= |board| && a.rank.value == board[a.rank.value - 1].rank
                             && board[a.rank.value - 1].userId == caller.id
                             && a.totalPoints == board[a.rank.value - 1].totalPoints
                             && forall i :: 0 <= i < a.rank.value - 1 ==> board[i].userId != caller.id
    ensures a.rank.None? <==> var board := Leaderboard(standings, MyRankFetchLimit);
                              forall i :: 0 <= i < |board| ==> board[i].userId != caller.id
    ensures a.rank.None? ==> a.totalPoints == 0
  {
    var board := Leaderboard(standings, MyRankFetchLimit);
    a := FindRank(board, caller.id);
  }

  /** `unlock_user_achievement`: 400 when the achievement was already unlocked. */
  method UnlockUserAchievement(s: GamificationStore, caller: User, achievementId: nat, now: int)
    returns (r: Result<UserAchievement>)
    requires s.Valid()
    modifies s
    ensures s.Valid()
    ensures r.Fail? <==> (caller.id, achievementId) in old(s.unlocks)
                         && old(s.unlocks)[(caller.id, achievementId)].unlockedAt.Some?
    ensures r.Fail? ==> r.error == BadRequest && s.unlocks == old(s.unlocks) && s.levels == old(s.levels)
    ensures r.Ok? ==> s.unlocks == old(s.unlocks)[(caller.id, achievementId) := r.value] && r.value.unlockedAt == Some(now)
  {
    var u := s.UnlockAchievement(caller.id, achievementId, now);
    if u.None? {
      return Fail(BadRequest);
    }
    r := Ok(u.value);
  }

  /** The transactions of users in the organization (an SQL `IS NULL` match when it is `None`). */
  function OrganizationTransactions(txs: seq<PointTransaction>, userOrg: map<nat, Option<int>>, org: Option<int>)
    : (r: seq<PointTransaction>)
    ensures |r| <= |txs|
    ensures forall t :: t in r <==> t in txs && t.userId in userOrg && userOrg[t.userId] == org
  {
    if txs == [] then []
    else
      var last := txs[|txs| - 1];
      assert txs == txs[..|txs| - 1] + [last];
      OrganizationTransactions(txs[..|txs| - 1], userOrg, org)
      + (if last.userId in userOrg && userOrg[last.userId] == org then [last] else [])
  }

  /** The users appearing in a list of transactions. */
  function Earners(txs: seq<PointTransaction>): (r: set<nat>)
    ensures forall u :: u in r <==> exists t :: t in txs && t.userId == u
  {
    set t | t in txs :: t.userId
  }

  /** Each transaction adds at most one earner. */
  lemma {:induction false} EarnersBounded(txs: seq<PointTransaction>)
    ensures |Earners(txs)| <= |txs|
    ensures |Earners(txs)| == 0 <==> txs == []
  {
    if txs != [] {
      var init := txs[..|txs| - 1];
      var last := txs[|txs| - 1];
      assert txs == init + [last];
      EarnersBounded(init);
      assert Earners(txs) == Earners(init) + {last.userId};
      assert last.userId in Earners(txs);
    }
  }

  /** The organization figures `get_organization_gamification_stats` returns, its average aside. */
  datatype OrganizationStats = OrganizationStats(activeUsers: nat, totalPointsAwarded: int, achievementsUnlocked: nat)

  /**
   * `get_organization_gamification_stats` behind the admin gate: users with
   * at least one transaction, the sum of their points, and the unlocked
   * achievements of the organization's users.
   */
  function GetOrganizationGamificationStats(caller: User, txs: seq<PointTransaction>,
                                            unlocks: map<(nat, nat), UserAchievement>,
                                            userOrg: map<nat, Option<int>>): (r: Result<OrganizationStats>)
    ensures r.Ok? <==> IsAdmin(caller.role)
    ensures r.Fail? ==> r.error == Forbidden
    ensures r.Ok? ==> var own := OrganizationTransactions(txs, userOrg, caller.organizationId);
                      r.value.activeUsers <= |own| && (r.value.activeUsers == 0 <==> own == [])
                      && r.value.totalPointsAwarded == SumOf(own, (t: PointTransaction) => t.points)
    ensures r.Ok? ==> r.value.activeUsers == |Earners(OrganizationTransactions(txs, userOrg, caller.organizationId))|
    ensures r.Ok? ==> r.value.achievementsUnlocked
                        == |set k | k in unlocks && unlocks[k].unlockedAt.Some? && k.0 in userOrg
                                    && userOrg[k.0] == caller.organizationId|
    ensures r.Ok? ==> r.value.achievementsUnlocked <= |unlocks|
  {
    if AdminRoleNameGate(caller).Fail? then Fail(Forbidden)
    else
      var own := OrganizationTransactions(txs, userOrg, caller.organizationId);
      EarnersBounded(own);
      var unlocked := set k | k in unlocks && unlocks[k].unlockedAt.Some?
                                && k.0 in userOrg && userOrg[k.0] == caller.organizationId;
      assert unlocked <= unlocks.Keys;
      SubsetCardinality(unlocked, unlocks.Keys);
      Ok(OrganizationStats(|Earners(own)|, SumOf(own, (t: PointTransaction) => t.points), |unlocked|))
  }
}

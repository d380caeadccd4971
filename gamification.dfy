/**
 * Points, levels, streaks, achievements and the leaderboard
 * (backend/app/crud/gamification.py).  Clock readings are seconds since the
 * epoch, in UTC, and a calendar day is such a reading divided by 86400.
 */
module Gamification {
  import opened Common

  /** The largest `k` with `k * k <= n`. */
  function Isqrt(n: nat): (k: nat)
    ensures k * k <= n < (k + 1) * (k + 1)
  {
    if n == 0 then 0
    else
      var k := Isqrt(n - 1);
      if (k + 1) * (k + 1) <= n then k + 1 else k
  }

  /**
   * `_calculate_level_from_points`: `floor(sqrt(points / 100)) + 1`.  A
   * negative total makes `math.sqrt` raise.
   */
  function LevelFromPoints(points: int): (r: Result<nat>)
    ensures r.Fail? <==> points < 0
    ensures r.Fail? ==> r.error == ServerError
    ensures r.Ok? ==> r.value >= 1 && LevelBounds(r.value, points)
  {
    if points < 0 then Fail(ServerError)
    else
      var k := Isqrt(points / 100);
      LevelBoundsOfRoot(k, points);
      Ok(k + 1)
  }

  /** Level `l` is reached at `100 (l-1)^2` points and left at `100 l^2`. */
  predicate LevelBounds(l: nat, points: int)
  {
    l >= 1 && 100 * (l - 1) * (l - 1) <= points < 100 * l * l
  }

  lemma LevelBoundsOfRoot(k: nat, points: int)
    requires points >= 0 && k * k <= points / 100 < (k + 1) * (k + 1)
    ensures LevelBounds(k + 1, points)
  {
    var q := points / 100;
    assert points == 100 * q + points % 100;
    assert q + 1 <= (k + 1) * (k + 1);
  }

  lemma SquareMonotone(a: nat, b: nat)
    requires a <= b
    ensures a * a <= b * b
  {
  }

  /** Only one level satisfies the bounds, so the formula picks it. */
  lemma LevelBoundsUnique(l: nat, m: nat, points: int)
    requires LevelBounds(l, points) && LevelBounds(m, points)
    ensures l == m
  {
    if l < m {
      SquareMonotone(l, m - 1);
    } else if m < l {
      SquareMonotone(m, l - 1);
    }
  }

  /** More points never mean a lower level. */
  lemma LevelMonotone(p: int, q: int)
    requires 0 <= p <= q
    ensures LevelFromPoints(p).value <= LevelFromPoints(q).value
  {
    var l, m := LevelFromPoints(p).value, LevelFromPoints(q).value;
    if m < l {
      SquareMonotone(m, l - 1);
    }
  }

  /** `_calculate_points_to_next_level`: `max(0, 100 level^2 - points)`. */
  function PointsToNextLevel(level: int, points: int): (r: nat)
    ensures r == 0 <==> points >= 100 * level * level
    ensures r > 0 ==> points + r == 100 * level * level
  {
    if 100 * level * level - points > 0 then 100 * level * level - points else 0
  }

  /** For a level that matches its points there are always points still to earn. */
  lemma PointsToNextLevelPositive(points: int)
    requires points >= 0
    ensures PointsToNextLevel(LevelFromPoints(points).value, points) > 0
  {
  }

  /** The calendar day of a clock reading. */
  function Day(t: int): int
  {
    t / 86400
  }

  /** The per-user row of points, level and streaks. */
  datatype UserLevel = UserLevel(
    userId: nat,
    totalPoints: int,
    level: nat,
    currentStreak: nat,
    longestStreak: nat,
    lastActivity: Option<int>)

  /** The row `award_points` creates for a user without one. */
  function FreshLevel(userId: nat): (r: UserLevel)
    ensures r.userId == userId && r.totalPoints == 0 && r.level == 1
    ensures r.currentStreak == 0 && r.longestStreak == 0 && r.lastActivity.None?
  {
    UserLevel(userId, 0, 1, 0, 0, None)
  }

  /**
   * `_update_daily_streak`: activity on the previous day extends the streak,
   * anything else (no activity yet, the same day, an older day) restarts it
   * at 1; the longest streak follows the current one up.
   */
  function UpdateDailyStreak(u: UserLevel, now: int): (r: UserLevel)
    ensures r.currentStreak >= 1 && r.longestStreak >= r.currentStreak && r.longestStreak >= u.longestStreak
    ensures r.longestStreak == r.currentStreak || r.longestStreak == u.longestStreak
    ensures r.currentStreak > 1 <==> u.lastActivity.Some? && Day(u.lastActivity.value) == Day(now) - 1 && u.currentStreak >= 1
    ensures r == u.(currentStreak := r.currentStreak, longestStreak := r.longestStreak)
  {
    var current :=
      if u.lastActivity.Some? && Day(u.lastActivity.value) == Day(now) - 1 then u.currentStreak + 1
      else 1;
    u.(currentStreak := current, longestStreak := if current > u.longestStreak then current else u.longestStreak)
  }

  /** A streak counted yesterday grows by one today. */
  lemma StreakExtendsFromYesterday(u: UserLevel, now: int)
    requires u.lastActivity.Some? && Day(u.lastActivity.value) == Day(now) - 1
    ensures UpdateDailyStreak(u, now).currentStreak == u.currentStreak + 1
  {
  }

  /**
   * `award_points` on the user's row: add the points, record the activity,
   * raise the level when the new total reaches a higher one, and run the
   * streak update for a `daily_login` award.  A negative new total fails.
   */
  function AwardToLevel(u: UserLevel, category: string, points: int, now: int): (r: Result<UserLevel>)
    ensures r.Fail? <==> u.totalPoints + points < 0
    ensures r.Ok? ==> r.value.userId == u.userId && r.value.totalPoints == u.totalPoints + points
    ensures r.Ok? ==> r.value.lastActivity == Some(now)
    ensures r.Ok? ==> r.value.level >= u.level && r.value.level >= LevelFromPoints(u.totalPoints + points).value
    ensures r.Ok? ==> r.value.level == u.level || r.value.level == LevelFromPoints(u.totalPoints + points).value
    ensures r.Ok? && category != "daily_login" ==>
              r.value.currentStreak == u.currentStreak && r.value.longestStreak == u.longestStreak
  {
    var touched := u.(totalPoints := u.totalPoints + points, lastActivity := Some(now));
    match LevelFromPoints(touched.totalPoints)
    case Fail(e) => Fail(e)
    case Ok(l) =>
      var leveled := if l > touched.level then touched.(level := l) else touched;
      Ok(if category == "daily_login" then UpdateDailyStreak(leveled, now) else leveled)
  }

  /**
   * The activity date is written before the streak update reads it, so a
   * `daily_login` award always leaves the current streak at 1.
   */
  lemma {:induction false} DailyLoginStreakIsOne(u: UserLevel, points: int, now: int)
    requires u.totalPoints + points >= 0
    ensures AwardToLevel(u, "daily_login", points, now).value.currentStreak == 1
  {
    var touched := u.(totalPoints := u.totalPoints + points, lastActivity := Some(now));
    assert Day(now) != Day(now) - 1;
    var l := LevelFromPoints(touched.totalPoints).value;
    var leveled := if l > touched.level then touched.(level := l) else touched;
    assert leveled.lastActivity == Some(now);
    assert UpdateDailyStreak(leveled, now).currentStreak == 1;
  }

  /** A point transaction as `award_points` records it. */
  datatype PointTransaction = PointTransaction(
    userId: nat,
    category: string,
    points: int,
    description: string,
    referenceId: Option<int>,
    referenceType: Option<string>)

  /** An achievement of the catalog; only its reward matters here. */
  datatype Achievement = Achievement(id: nat, name: string, pointsReward: int)

  /** A user's progress on one achievement. */
  datatype UserAchievement = UserAchievement(userId: nat, achievementId: nat, unlockedAt: Option<int>, progress: int)

  /** One row of the grouped leaderboard query: a user and the sum of their points. */
  datatype Standing = Standing(userId: nat, userName: string, totalPoints: int)

  /** One leaderboard entry, with its 1-based rank. */
  datatype LeaderboardEntry = LeaderboardEntry(userId: nat, userName: string, totalPoints: int, rank: nat)

  predicate NonIncreasing(s: seq<Standing>)
  {
    forall i, j :: 0 <= i < j < |s| ==> s[i].totalPoints >= s[j].totalPoints
  }

  /** Insert `x` into a list ordered by points, highest first, after its equals. */
  function InsertByPoints(x: Standing, s: seq<Standing>): (r: seq<Standing>)
    ensures |r| == |s| + 1
    ensures forall i :: 0 <= i < |r| ==> r[i] == x || r[i] in s
    ensures multiset(r) == multiset(s) + multiset{x}
  {
    if s == [] then [x]
    else if s[0].totalPoints >= x.totalPoints then
      assert s == [s[0]] + s[1..];
      [s[0]] + InsertByPoints(x, s[1..])
    else [x] + s
  }

  /** Insertion keeps a list ordered. */
  lemma {:induction false} InsertKeepsOrder(x: Standing, s: seq<Standing>)
    requires NonIncreasing(s)
    ensures NonIncreasing(InsertByPoints(x, s))
  {
    if s != [] && s[0].totalPoints >= x.totalPoints {
      InsertKeepsOrder(x, s[1..]);
      var rest := InsertByPoints(x, s[1..]);
      assert forall i :: 0 <= i < |rest| ==> rest[i].totalPoints <= s[0].totalPoints;
      assert InsertByPoints(x, s) == [s[0]] + rest;
    }
  }

  /** `order_by(desc('total_points'))`: the standings, highest total first. */
  function SortByPoints(s: seq<Standing>): (r: seq<Standing>)
    ensures NonIncreasing(r) && multiset(r) == multiset(s) && |r| == |s|
  {
    if s == [] then []
    else
      assert s == s[..|s| - 1] + [s[|s| - 1]];
      var sorted := SortByPoints(s[..|s| - 1]);
      InsertKeepsOrder(s[|s| - 1], sorted);
      InsertByPoints(s[|s| - 1], sorted)
  }

  /** `enumerate(results, 1)`: entry `i` gets rank `i + 1`. */
  function Ranked(s: seq<Standing>): (r: seq<LeaderboardEntry>)
    ensures |r| == |s|
    ensures forall i :: 0 <= i < |r| ==>
              r[i] == LeaderboardEntry(s[i].userId, s[i].userName, s[i].totalPoints, i + 1)
  {
    seq(|s|, i requires 0 <= i < |s| => LeaderboardEntry(s[i].userId, s[i].userName, s[i].totalPoints, i + 1))
  }

  /**
   * `get_leaderboard` on the grouped standings of one organization: ordered
   * by total, cut to `limit`, ranked from 1.
   */
  function Leaderboard(standings: seq<Standing>, limit: nat): (r: seq<LeaderboardEntry>)
    ensures |r| == if limit < |standings| then limit else |standings|
    ensures forall i :: 0 <= i < |r| ==> r[i].rank == i + 1
    ensures forall i, j :: 0 <= i < j < |r| ==> r[i].totalPoints >= r[j].totalPoints
  {
    var sorted := SortByPoints(standings);
    Ranked(sorted[..if limit < |sorted| then limit else |sorted|])
  }

  /**
   * Every entry is one of the standings, and a standing the cut left out
   * has no more points than any entry kept.
   */
  lemma LeaderboardIsTop(standings: seq<Standing>, limit: nat)
    ensures forall i :: 0 <= i < |Leaderboard(standings, limit)| ==>
              Standing(Leaderboard(standings, limit)[i].userId, Leaderboard(standings, limit)[i].userName,
                       Leaderboard(standings, limit)[i].totalPoints) in standings
    ensures |Leaderboard(standings, limit)| < |standings| ==>
              multiset(standings) - multiset(KeptStandings(standings, limit)) == multiset(DroppedStandings(standings, limit))
    ensures forall i, j :: 0 <= i < |Leaderboard(standings, limit)| && 0 <= j < |DroppedStandings(standings, limit)| ==>
              DroppedStandings(standings, limit)[j].totalPoints <= Leaderboard(standings, limit)[i].totalPoints
  {
    LeaderboardEntriesKnown(standings, limit);
    LeaderboardCutSplits(standings, limit);
    LeaderboardOutranksCut(standings, limit);
  }

  lemma LeaderboardEntriesKnown(standings: seq<Standing>, limit: nat)
    ensures forall i :: 0 <= i < |Leaderboard(standings, limit)| ==>
              Standing(Leaderboard(standings, limit)[i].userId, Leaderboard(standings, limit)[i].userName,
                       Leaderboard(standings, limit)[i].totalPoints) in standings
  {
    var sorted := SortByPoints(standings);
    var n := if limit < |sorted| then limit else |sorted|;
    var lb := Leaderboard(standings, limit);
    assert lb == Ranked(sorted[..n]);
    forall i | 0 <= i < |lb|
      ensures Standing(lb[i].userId, lb[i].userName, lb[i].totalPoints) in standings
    {
      assert Standing(lb[i].userId, lb[i].userName, lb[i].totalPoints) == sorted[i];
      assert sorted[i] in multiset(sorted);
    }
  }

  lemma LeaderboardCutSplits(standings: seq<Standing>, limit: nat)
    ensures multiset(standings) - multiset(KeptStandings(standings, limit)) == multiset(DroppedStandings(standings, limit))
  {
    var sorted := SortByPoints(standings);
    var n := if limit < |sorted| then limit else |sorted|;
    SplitMultiset(sorted, n);
  }

  /** Cutting a list in two splits its multiset: what the front leaves is the back. */
  lemma SplitMultiset<T>(s: seq<T>, n: nat)
    requires n <= |s|
    ensures multiset(s) - multiset(s[..n]) == multiset(s[n..])
  {
    assert s == s[..n] + s[n..];
  }

  lemma LeaderboardOutranksCut(standings: seq<Standing>, limit: nat)
    ensures forall i, j :: 0 <= i < |Leaderboard(standings, limit)| && 0 <= j < |DroppedStandings(standings, limit)| ==>
              DroppedStandings(standings, limit)[j].totalPoints <= Leaderboard(standings, limit)[i].totalPoints
  {
    var sorted := SortByPoints(standings);
    var n := if limit < |sorted| then limit else |sorted|;
    var lb := Leaderboard(standings, limit);
    assert lb == Ranked(sorted[..n]);
    CutIsTop(sorted, n);
  }

  /** In a list ordered by points, nothing after the cut has more points than anything before it. */
  lemma CutIsTop(sorted: seq<Standing>, n: nat)
    requires NonIncreasing(sorted) && n <= |sorted|
    ensures forall i, j :: 0 <= i < n && 0 <= j < |sorted| - n ==> sorted[n..][j].totalPoints <= sorted[..n][i].totalPoints
  {
    forall i, j | 0 <= i < n && 0 <= j < |sorted| - n
      ensures sorted[n..][j].totalPoints <= sorted[..n][i].totalPoints
    {
      assert sorted[n..][j] == sorted[n + j] && sorted[..n][i] == sorted[i];
    }
  }

  /** The standings the leaderboard keeps, in its order. */
  function KeptStandings(standings: seq<Standing>, limit: nat): seq<Standing>
  {
    var sorted := SortByPoints(standings);
    sorted[..if limit < |sorted| then limit else |sorted|]
  }

  /** The standings the leaderboard cuts off. */
  function DroppedStandings(standings: seq<Standing>, limit: nat): seq<Standing>
  {
    var sorted := SortByPoints(standings);
    sorted[if limit < |sorted| then limit else |sorted|..]
  }

  /** The user's row, or the row `award_points` would create for them. */
  function LevelRow(levels: map<nat, UserLevel>, userId: nat): (r: UserLevel)
    ensures r.userId == (if userId in levels then levels[userId].userId else userId)
    ensures userId !in levels ==> r == FreshLevel(userId)
  {
    if userId in levels then levels[userId] else FreshLevel(userId)
  }

  /** The figures `get_user_level` answers with. */
  datatype LevelView = LevelView(
    userId: nat,
    totalPoints: int,
    level: nat,
    pointsToNextLevel: nat,
    currentStreak: nat,
    longestStreak: nat,
    lastActivity: Option<int>)

  /** The gamification tables. */
  class GamificationStore {
    var levels: map<nat, UserLevel>
    var transactions: seq<PointTransaction>
    var achievements: map<nat, Achievement>
    var unlocks: map<(nat, nat), UserAchievement>

    /**
     * Each row is keyed by its user; totals never go below zero, and a
     * stored level is never below the level its total reaches.
     */
    ghost predicate Valid()
      reads this
    {
      (forall u :: u in levels ==>
         levels[u].userId == u && levels[u].totalPoints >= 0
         && levels[u].level >= LevelFromPoints(levels[u].totalPoints).value)
      && (forall k :: k in unlocks ==> unlocks[k].userId == k.0 && unlocks[k].achievementId == k.1)
    }

    constructor (catalog: map<nat, Achievement>)
      ensures Valid()
      ensures levels == map[] && transactions == [] && achievements == catalog && unlocks == map[]
    {
      levels := map[];
      transactions := [];
      achievements := catalog;
      unlocks := map[];
    }

    /**
     * `get_user_level`: the row, created on first use, with the points still
     * needed for the next level, which are always more than zero.
     */
    method GetUserLevel(userId: nat) returns (v: LevelView)
      requires Valid()
      modifies this
      ensures Valid()
      ensures levels == old(levels)[userId := LevelRow(old(levels), userId)]
      ensures transactions == old(transactions) && achievements == old(achievements) && unlocks == old(unlocks)
      ensures v.userId == userId && v.totalPoints == levels[userId].totalPoints && v.level == levels[userId].level
      ensures v.currentStreak == levels[userId].currentStreak && v.longestStreak == levels[userId].longestStreak
      ensures v.pointsToNextLevel > 0 && v.totalPoints + v.pointsToNextLevel == 100 * v.level * v.level
    {
      if userId !in levels {
        levels := levels[userId := FreshLevel(userId)];
      }
      var u := levels[userId];
      NextLevelAhead(u.level, u.totalPoints);
      v := LevelView(u.userId, u.totalPoints, u.level, PointsToNextLevel(u.level, u.totalPoints),
                     u.currentStreak, u.longestStreak, u.lastActivity);
    }

    /**
     * `award_points`: record the transaction and update the user's row (made
     * on first use).  A total that would go below zero makes the level
     * formula raise, so nothing is written.
     */
    method AwardPoints(userId: nat, category: string, points: int, description: string,
                       referenceId: Option<int>, referenceType: Option<string>, now: int)
      returns (r: Result<PointTransaction>)
      requires Valid()
      modifies this
      ensures Valid()
      ensures r.Fail? <==> LevelRow(old(levels), userId).totalPoints + points < 0
      ensures r.Fail? ==> r.error == ServerError && levels == old(levels) && transactions == old(transactions)
      ensures r.Ok? ==> r.value == PointTransaction(userId, category, points, description, referenceId, referenceType)
      ensures r.Ok? ==> transactions == old(transactions) + [r.value]
      ensures r.Ok? ==> levels == old(levels)[userId := AwardToLevel(LevelRow(old(levels), userId), category, points, now).value]
      ensures achievements == old(achievements) && unlocks == old(unlocks)
    {
      var row := LevelRow(levels, userId);
      var updated := AwardToLevel(row, category, points, now);
      if updated.Fail? {
        return Fail(ServerError);
      }
      var tx := PointTransaction(userId, category, points, description, referenceId, referenceType);
      transactions := transactions + [tx];
      levels := levels[userId := updated.value];
      r := Ok(tx);
    }

    /**
     * `unlock_achievement`: `None`, and no change, when the user already
     * unlocked it; otherwise the (possibly new) row is stamped with `now`
     * and progress 100, and a positive reward of a known achievement is
     * awarded once as points.
     */
    method UnlockAchievement(userId: nat, achievementId: nat, now: int) returns (r: Option<UserAchievement>)
      requires Valid()
      modifies this
      ensures Valid()
      ensures r.None? <==> (userId, achievementId) in old(unlocks) && old(unlocks)[(userId, achievementId)].unlockedAt.Some?
      ensures r.None? ==> levels == old(levels) && transactions == old(transactions) && unlocks == old(unlocks)
      ensures r.Some? ==> r.value.userId == userId && r.value.achievementId == achievementId
                          && r.value.unlockedAt == Some(now) && r.value.progress == 100
                          && unlocks == old(unlocks)[(userId, achievementId) := r.value]
      ensures r.Some? && Rewarded(old(achievements), achievementId) ==>
                var reward := old(achievements)[achievementId].pointsReward;
                transactions == old(transactions) + [RewardTransaction(userId, achievementId, old(achievements)[achievementId])]
                && levels == old(levels)[userId := AwardToLevel(LevelRow(old(levels), userId), "achievements", reward, now).value]
      ensures r.Some? && !Rewarded(old(achievements), achievementId) ==>
                levels == old(levels) && transactions == old(transactions)
      ensures achievements == old(achievements)
    {
      var key := (userId, achievementId);
      if key in unlocks && unlocks[key].unlockedAt.Some? {
        return None;
      }
      var row := if key in unlocks then unlocks[key] else UserAchievement(userId, achievementId, None, 100);
      row := row.(unlockedAt := Some(now), progress := 100);
      unlocks := unlocks[key := row];
      if Rewarded(achievements, achievementId) {
        var a := achievements[achievementId];
        var t := AwardPoints(userId, "achievements", a.pointsReward, "Achievement unlocked: " + a.name,
                             Some(achievementId as int), Some("achievement"), now);
      }
      r := Some(row);
    }
  }

  /** The achievement exists and carries a positive reward. */
  predicate Rewarded(achievements: map<nat, Achievement>, achievementId: nat)
  {
    achievementId in achievements && achievements[achievementId].pointsReward > 0
  }

  /** The transaction an unlock records for its reward. */
  function RewardTransaction(userId: nat, achievementId: nat, a: Achievement): (t: PointTransaction)
    ensures t.userId == userId && t.category == "achievements" && t.points == a.pointsReward
    ensures t.referenceId == Some(achievementId as int)
  {
    PointTransaction(userId, "achievements", a.pointsReward, "Achievement unlocked: " + a.name,
                     Some(achievementId as int), Some("achievement"))
  }

  /** A level at least the one a total reaches is always ahead of that total. */
  lemma NextLevelAhead(level: nat, points: int)
    requires points >= 0 && level >= LevelFromPoints(points).value
    ensures points < 100 * level * level
  {
    var l := LevelFromPoints(points).value;
    SquareMonotone(l, level);
  }
}

/**
 * The leaderboard service (Services/LeaderboardService.cs), minus the network: the entry a
 * user publishes, and the ranking over the entries a fetch returned.
 *
 * A fetch is an `Option`: `None` stands for a fetch that threw, which the service turns into
 * an empty list or rank -1. Publishing returns the entry the service would put, if any.
 */
module Leaderboard {
  import opened Wrappers
  import opened Numeric
  import opened Models
  import opened Seqs
  import opened StableSort
  import Progress

  /** The ranking key: level first, then total experience, both descending. */
  function RankKey(e: LeaderboardEntry): Key {
    Key(e.level, e.totalXP)
  }

  /** The fetched entries, ordered by level and then total experience, highest first, ties in fetched order. */
  function Ranked(entries: seq<LeaderboardEntry>): (r: seq<LeaderboardEntry>)
    ensures multiset(r) == multiset(entries)
  {
    SortPermutes(entries, RankKey);
    Sort(entries, RankKey)
  }

  /** The ranking cut to its first `count` entries. */
  function TopEntries(entries: seq<LeaderboardEntry>, count: int): (r: seq<LeaderboardEntry>)
    ensures |r| == if count <= 0 then 0 else if count < |entries| then count else |entries|
  {
    Take(Ranked(entries), count)
  }

  /**
   * The top entries are at most `count` of the fetched entries (all of them if there are
   * fewer), highest first, and nothing left out outranks anything kept.
   */
  lemma TopEntriesAreTheTop(entries: seq<LeaderboardEntry>, count: int)
    ensures var top := TopEntries(entries, count);
      && |top| == (if count <= 0 then 0 else if count < |entries| then count else |entries|)
      && multiset(top) <= multiset(entries)
      && SortedDesc(top, RankKey)
      && forall i, j :: 0 <= i < |top| <= j < |Ranked(entries)| ==> !Outranks(RankKey(Ranked(entries)[j]), RankKey(top[i]))
  {
    var ranked := Ranked(entries);
    var top := TopEntries(entries, count);
    SortSorted(entries, RankKey);
    SortPermutes(entries, RankKey);
    assert ranked == top + ranked[|top|..];
    calc {
      multiset(entries);
      multiset(ranked);
      multiset(top) + multiset(ranked[|top|..]);
    }
  }

  /** Ties keep their fetched order: among entries with equal level and total, the ranking keeps fetched order. */
  lemma RankingIsStable(entries: seq<LeaderboardEntry>, k: Key)
    ensures WithKey(Ranked(entries), RankKey, k) == WithKey(entries, RankKey, k)
  {
    SortStable(entries, RankKey, k);
  }

  /** `List.FindIndex` for a user id: the first position holding that user, or -1. */
  function FindIndex(s: seq<LeaderboardEntry>, userId: string): (r: int)
    ensures -1 <= r < |s|
    ensures r >= 0 ==> s[r].userId == userId && forall j :: 0 <= j < r ==> s[j].userId != userId
    ensures r == -1 ==> forall j :: 0 <= j < |s| ==> s[j].userId != userId
  {
    if s == [] then -1
    else if s[0].userId == userId then 0
    else
      var k := FindIndex(s[1..], userId);
      if k < 0 then -1 else k + 1
  }

  /** The user's 1-based place in the ranking, or -1 when the user has no entry. */
  function UserRank(entries: seq<LeaderboardEntry>, userId: string): (r: int)
    ensures r == -1 || 1 <= r <= |entries|
  {
    var i := FindIndex(Ranked(entries), userId);
    if i >= 0 then i + 1 else -1
  }

  /**
   * The rank is -1 exactly when no fetched entry belongs to the user; otherwise it lies in
   * 1..n, names the user's entry, and no better-placed entry belongs to the user.
   */
  lemma UserRankMeaning(entries: seq<LeaderboardEntry>, userId: string)
    ensures var r := UserRank(entries, userId);
      && (r == -1 <==> forall i :: 0 <= i < |entries| ==> entries[i].userId != userId)
      && (r != -1 ==> 1 <= r <= |entries| && Ranked(entries)[r - 1].userId == userId
                      && forall j :: 0 <= j < r - 1 ==> Ranked(entries)[j].userId != userId)
  {
    var ranked := Ranked(entries);
    var r := UserRank(entries, userId);
    SortPermutes(entries, RankKey);
    if r == -1 {
      forall i | 0 <= i < |entries| ensures entries[i].userId != userId {
        assert entries[i] in multiset(ranked);
      }
    } else {
      assert ranked[r - 1] in multiset(entries);
    }
  }

  class LeaderboardService {
    const userId: string
    const username: string
    var isEnabled: bool

    constructor (userId: string, username: string, isEnabled: bool)
      ensures this.userId == userId && this.username == username && this.isEnabled == isEnabled
    {
      this.userId := userId;
      this.username := username;
      this.isEnabled := isEnabled;
    }

    method UpdateEnabled(enabled: bool)
      modifies this`isEnabled
      ensures isEnabled == enabled
    {
      isEnabled := enabled;
    }

    /**
     * The entry `UpdateLeaderboardAsync` publishes: none when the service is disabled or the
     * username is blank, otherwise the user's level, total experience and cue counts.
     */
    method UpdateLeaderboard(progress: Progress.UserProgress, completedCues: int, dismissedCues: int, now: DateTime)
      returns (written: Option<LeaderboardEntry>)
      ensures written.None? <==> !isEnabled || IsBlank(username)
      ensures written.Some? ==>
        written.value == LeaderboardEntry(userId, username, progress.level, progress.totalXPEarned,
                                          completedCues, dismissedCues, now)
    {
      if !isEnabled || IsBlank(username) {
        return None;
      }
      written := Some(LeaderboardEntry(userId, username, progress.level, progress.totalXPEarned,
                                       completedCues, dismissedCues, now));
    }

    /** The first `count` ranked entries; empty when disabled or when the fetch failed. */
    method GetTopEntries(fetched: Option<seq<LeaderboardEntry>>, count: int) returns (top: seq<LeaderboardEntry>)
      ensures !isEnabled || fetched.None? ==> top == []
      ensures isEnabled && fetched.Some? ==> top == TopEntries(fetched.value, count)
      ensures |top| <= (if count < 0 then 0 else count)
    {
      if !isEnabled {
        return [];
      }
      if fetched.None? {
        return [];
      }
      top := Take(Sort(fetched.value, RankKey), count);
    }

    /** The user's 1-based rank; -1 when disabled, when the fetch failed or when the user has no entry. */
    method GetUserRank(fetched: Option<seq<LeaderboardEntry>>) returns (rank: int)
      ensures !isEnabled || fetched.None? ==> rank == -1
      ensures isEnabled && fetched.Some? ==> rank == UserRank(fetched.value, userId)
      ensures rank == -1 || 1 <= rank
    {
      if !isEnabled {
        return -1;
      }
      if fetched.None? {
        return -1;
      }
      var sorted := Sort(fetched.value, RankKey);
      var userRank := FindIndex(sorted, userId);
      rank := if userRank >= 0 then userRank + 1 else -1;
    }
  }
}

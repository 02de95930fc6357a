/**
 * The leaderboard: one read of the users collection (server first, cache as
 * the fallback), shown as a podium of the first three and a numbered list of
 * the rest.
 */
module Ranking {
  import opened Wrappers
  import opened KotlinStd
  import UserStats
  import UserPrefs

  /** One user document as read: every field may be missing. */
  datatype UserDoc = UserDoc(id: string, name: Option<string>, score: Option<int>, avatar: Option<string>)

  datatype RankingUser = RankingUser(id: string, name: string, score: int, avatar: string)

  /** The row built from a document: missing fields take their defaults, the score is truncated to `Int`. */
  function ToRankingUser(d: UserDoc): (u: RankingUser)
    ensures u.id == d.id
    ensures InIntRange(u.score)
    ensures d.name.None? ==> u.name == UserPrefs.DefaultUserName
    ensures d.score.None? ==> u.score == 0
    ensures d.score.Some? && InIntRange(d.score.value) ==> u.score == d.score.value
    ensures d.avatar.None? ==> u.avatar == UserStats.DefaultAvatar
    ensures d.name.Some? ==> u.name == d.name.value
    ensures d.avatar.Some? ==> u.avatar == d.avatar.value
  {
    RankingUser(d.id, d.name.GetOr(UserPrefs.DefaultUserName),
                if d.score.Some? then ToInt(d.score.value) else 0,
                d.avatar.GetOr(UserStats.DefaultAvatar))
  }

  /** `mapNotNull` with a mapping that never gives null: one row per document, in order. */
  function RankingUsers(docs: seq<UserDoc>): (r: seq<RankingUser>)
    ensures |r| == |docs|
    ensures forall i :: 0 <= i < |docs| ==> r[i].id == docs[i].id && r[i] == ToRankingUser(docs[i])
  {
    seq(|docs|, i requires 0 <= i < |docs| => ToRankingUser(docs[i]))
  }

  class RankingScreenState {
    var users: seq<RankingUser>
    var isLoading: bool

    constructor ()
      ensures users == [] && isLoading
    {
      users := [];
      isLoading := true;
    }

    /**
     * The load effect: the server's answer, else the cache's, else the list
     * stays as it was; in every case loading ends.
     */
    method Load(read: Fetched<seq<UserDoc>>)
      modifies this
      ensures !isLoading
      ensures read.Unreachable? ==> users == old(users)
      ensures !read.Unreachable? ==> users == RankingUsers(read.docs)
    {
      isLoading := true;
      match read {
        case Network(docs) => users := RankingUsers(docs);
        case Cache(docs) => users := RankingUsers(docs);
        case Unreachable =>
      }
      isLoading := false;
    }
  }

  /** What the body of the screen shows. */
  datatype View = Spinner | Leaderboard | NoPlayers

  function ViewOf(isLoading: bool, users: seq<RankingUser>): (v: View)
    ensures v == Spinner <==> isLoading
    ensures v == NoPlayers <==> !isLoading && |users| == 0
  {
    if isLoading then Spinner else if |users| > 0 then Leaderboard else NoPlayers
  }

  /** The podium: gold for the first user, silver and bronze when there are a second and a third. */
  datatype Podium = Podium(gold: Option<RankingUser>, silver: Option<RankingUser>, bronze: Option<RankingUser>)

  function PodiumOf(users: seq<RankingUser>): (p: Podium)
    ensures p.gold.Some? <==> |users| >= 1
    ensures p.silver.Some? <==> |users| >= 2
    ensures p.bronze.Some? <==> |users| >= 3
    ensures p.gold.Some? ==> p.gold.value == users[0]
    ensures p.silver.Some? ==> p.silver.value == users[1]
    ensures p.bronze.Some? ==> p.bronze.value == users[2]
  {
    Podium(if |users| > 0 then Some(users[0]) else None,
           if |users| > 1 then Some(users[1]) else None,
           if |users| > 2 then Some(users[2]) else None)
  }

  /** A row of the list under the podium. */
  datatype RankedRow = RankedRow(rank: int, user: RankingUser)

  /** Everybody after the third, numbered from 4. */
  function RemainingRows(users: seq<RankingUser>): (r: seq<RankedRow>)
    ensures |r| == if |users| > 3 then |users| - 3 else 0
    ensures forall i :: 0 <= i < |r| ==> r[i] == RankedRow(i + 4, users[i + 3])
  {
    var remaining := if |users| > 3 then users[3..] else [];
    seq(|remaining|, i requires 0 <= i < |remaining| => RankedRow(i + 4, remaining[i]))
  }

  /** The podium slot of rank 1, 2 or 3. */
  function PodiumSlot(p: Podium, rank: int): Option<RankingUser> {
    if rank == 1 then p.gold else if rank == 2 then p.silver else if rank == 3 then p.bronze else None
  }

  /**
   * The podium and the list together show every loaded user exactly once, the
   * user at position k with rank k + 1; ranks run 1, 2, ... without a gap.
   */
  lemma EveryUserShownOnceWithItsRank(users: seq<RankingUser>)
    ensures forall k :: 0 <= k < |users| && k < 3 ==> PodiumSlot(PodiumOf(users), k + 1) == Some(users[k])
    ensures forall k :: 3 <= k < |users| ==> RemainingRows(users)[k - 3] == RankedRow(k + 1, users[k])
    ensures 3 + |RemainingRows(users)| == |users| || (|users| <= 3 && RemainingRows(users) == [])
    ensures forall i, j :: 0 <= i < j < |RemainingRows(users)| ==>
      RemainingRows(users)[i].rank < RemainingRows(users)[j].rank
  {
  }
}

/** The leaderboard: fetched creators are numbered by position, and the
    first three places get their own icon and row style. */
module LeaderboardPage {
  import opened Common

  /** A row of the leaderboard query; `rank` is absent until assigned. */
  datatype Creator = Creator(
    id: string,
    username: string,
    submissionsCount: int,
    votesCount: int,
    streak: int,
    rank: Option<int>)

  /** The creators of `cs` numbered from `first` on, in list order; no
      other field changes. */
  function RankFrom(cs: seq<Creator>, first: int): (r: seq<Creator>)
    ensures |r| == |cs|
    ensures forall i :: 0 <= i < |cs| ==> r[i] == cs[i].(rank := Some(first + i))
  {
    if cs == [] then []
    else [cs[0].(rank := Some(first))] + RankFrom(cs[1..], first + 1)
  }

  /** `data.map((creator, i) => ({ ...creator, rank: i + 1 }))`. */
  function AssignRanks(cs: seq<Creator>): (r: seq<Creator>)
    ensures |r| == |cs|
    ensures forall i :: 0 <= i < |cs| ==> r[i] == cs[i].(rank := Some(i + 1))
  {
    RankFrom(cs, 1)
  }

  /** The ranks are 1, 2, ..., n, in list order. */
  lemma RanksAreConsecutive(cs: seq<Creator>)
    ensures forall i :: 0 <= i < |cs| ==> AssignRanks(cs)[i].rank == Some(i + 1)
    ensures |AssignRanks(cs)| == |cs|
  {
  }

  /** A creator without its rank. */
  function Unranked(c: Creator): Creator {
    c.(rank := None)
  }

  /** Ranking keeps every other column of every row, and ranking an
      already ranked list changes nothing. */
  lemma RankingKeepsRows(cs: seq<Creator>)
    ensures forall i :: 0 <= i < |cs| ==> Unranked(AssignRanks(cs)[i]) == Unranked(cs[i])
    ensures AssignRanks(AssignRanks(cs)) == AssignRanks(cs)
  {
  }

  /** Ranking a list in two parts numbers the second part on from where
      the first stops. */
  lemma {:induction false} RankFromAppend(a: seq<Creator>, b: seq<Creator>, first: int)
    ensures RankFrom(a + b, first) == RankFrom(a, first) + RankFrom(b, first + |a|)
  {
    var whole := RankFrom(a + b, first);
    var parts := RankFrom(a, first) + RankFrom(b, first + |a|);
    forall i | 0 <= i < |whole|
      ensures whole[i] == parts[i]
    {
      if i >= |a| {
        assert (a + b)[i] == b[i - |a|];
      }
    }
  }

  /** The query orders by `votes_count`, highest first; when the rows
      arrive in that order, a better rank never has fewer votes. */
  lemma RankFollowsVotes(cs: seq<Creator>, i: int, j: int)
    requires forall k, l :: 0 <= k < l < |cs| ==> cs[k].votesCount >= cs[l].votesCount
    requires 0 <= i < |cs| && 0 <= j < |cs|
    requires AssignRanks(cs)[i].rank.value < AssignRanks(cs)[j].rank.value
    ensures AssignRanks(cs)[i].votesCount >= AssignRanks(cs)[j].votesCount
  {
  }

  /** The icon of `getRankIcon`; the two medals differ in colour. */
  datatype MedalTone = Gray | Amber
  datatype RankIcon = Crown | Medal(tone: MedalTone) | Star

  function RankIconFor(rank: int): (icon: RankIcon)
    ensures icon == Crown <==> rank == 1
    ensures icon.Medal? <==> rank == 2 || rank == 3
    ensures icon.Medal? ==> (icon.tone == Gray <==> rank == 2)
    ensures icon == Star <==> rank < 1 || rank > 3
  {
    if rank == 1 then Crown
    else if rank == 2 then Medal(Gray)
    else if rank == 3 then Medal(Amber)
    else Star
  }

  /** The row styles of `getRankStyle`: a gradient for each podium place,
      none for the rest. */
  datatype RowStyle = GoldRow | SilverRow | BronzeRow | PlainRow

  function RankStyle(rank: int): (style: RowStyle)
    ensures style != PlainRow <==> 1 <= rank <= 3
  {
    if rank == 1 then GoldRow
    else if rank == 2 then SilverRow
    else if rank == 3 then BronzeRow
    else PlainRow
  }

  /** The class string each style stands for, written token by token: a
      gradient for each podium style, "" for the plain one. */
  function StyleClasses(style: RowStyle): (classes: string)
    ensures classes == "" <==> style == PlainRow
  {
    match style
    case GoldRow =>
      "bg-gradient-to-r" + " from-yellow-50" + " to-yellow-100" + " border-yellow-200"
      + " dark:from-yellow-900/20" + " dark:to-yellow-800/20" + " dark:border-yellow-800/30"
    case SilverRow =>
      "bg-gradient-to-r" + " from-gray-50" + " to-gray-100" + " border-gray-200"
      + " dark:from-gray-900/20" + " dark:to-gray-800/20" + " dark:border-gray-800/30"
    case BronzeRow =>
      "bg-gradient-to-r" + " from-amber-50" + " to-amber-100" + " border-amber-200"
      + " dark:from-amber-900/20" + " dark:to-amber-800/20" + " dark:border-amber-800/30"
    case PlainRow => ""
  }

  /** `getRankStyle` gives "" to ranks outside the podium and a non-empty
      gradient class to ranks 1, 2 and 3. */
  lemma StyleNonEmptyByRank(rank: int)
    ensures StyleClasses(RankStyle(rank)) != "" <==> 1 <= rank <= 3
  {
  }

  /** The rows with a special style are exactly those with a crown or a
      medal. */
  lemma StyleMatchesIcon(rank: int)
    ensures RankStyle(rank) != PlainRow <==> RankIconFor(rank) != Star
  {
  }

  /** In a ranked list the podium is the first three rows and nothing
      else. */
  lemma PodiumIsTopThree(cs: seq<Creator>, i: int)
    requires 0 <= i < |cs|
    ensures RankStyle(AssignRanks(cs)[i].rank.value) != PlainRow <==> i < 3
  {
  }

  /** The `Leaderboard` page's state. */
  class Leaderboard {
    var topCreators: seq<Creator>

    constructor ()
      ensures topCreators == []
    {
      topCreators := [];
    }

    /** `fetchLeaderboard`: on error the shown list is kept. It also runs
        on every change notice of the realtime channel. */
    method FetchLeaderboard(result: Response<seq<Creator>>)
      modifies this
      ensures topCreators == if result.Ok? then AssignRanks(result.value) else old(topCreators)
    {
      if result.Ok? {
        topCreators := AssignRanks(result.value);
      }
    }
  }
}

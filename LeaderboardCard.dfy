/** The rules one leaderboard card applies to its team and to the rank that
    team had in the baseline snapshot: the rank-change badge, the rank badge's
    variant and icon, the progress bar and the plural suffixes. */
module LeaderboardCard {
  import opened Types

  /** `rankChanged`: a baseline rank exists and differs from the current
      one, i.e. the team moved strictly up or strictly down. */
  predicate RankChanged(previousRank: Option<int>, rank: int): (r: bool)
    ensures previousRank.None? ==> !r
    ensures previousRank.Some? ==> (r <==> previousRank.value < rank || rank < previousRank.value)
  {
    previousRank.Some? && previousRank.value != rank
  }

  /** `movedUp`: a baseline rank exists and is numerically larger (rank 1 is
      the top). Moving up is one way of changing rank, and among changed
      ranks it is exactly the case where the number went down. */
  predicate MovedUp(previousRank: Option<int>, rank: int): (r: bool)
    ensures r ==> RankChanged(previousRank, rank)
    ensures RankChanged(previousRank, rank) ==> (r <==> rank < previousRank.value)
    ensures previousRank == Some(rank) ==> !r
  {
    previousRank.Some? && previousRank.value > rank
  }

  /** The rank-change badge: an up arrow or a down arrow with a number. */
  datatype Indicator = Up(amount: int) | Down(amount: int)

  /** The badge a card shows, if any. The number is `previousRank - rank`
      when the team moved up and `rank - previousRank` otherwise. Stated
      against the signed delta `previousRank - rank` (positive means the team
      moved towards rank 1): no badge when the delta is zero or there is no
      baseline, otherwise the delta's direction and its size, which is
      always positive. */
  function RankIndicator(previousRank: Option<int>, rank: int): (r: Option<Indicator>)
    ensures r.None? <==> !RankChanged(previousRank, rank)
    ensures r.Some? ==> r.value.amount > 0 && (r.value.Up? <==> MovedUp(previousRank, rank))
    ensures previousRank.None? ==> r.None?
    ensures previousRank.Some? ==>
      var delta := previousRank.value - rank;
      r == if delta > 0 then Some(Up(delta)) else if delta < 0 then Some(Down(-delta)) else None
  {
    if RankChanged(previousRank, rank) then
      if MovedUp(previousRank, rank) then Some(Up(previousRank.value - rank))
      else Some(Down(rank - previousRank.value))
    else None
  }

  datatype Variant = Gold | Silver | Bronze | Secondary

  datatype Icon = Trophy | Medal

  /** `getRankVariant`. */
  function RankVariant(rank: int): (v: Variant)
    ensures v == Gold <==> rank == 1
    ensures v == Silver <==> rank == 2
    ensures v == Bronze <==> rank == 3
    ensures v == Secondary <==> !(1 <= rank <= 3)
  {
    match rank
    case 1 => Gold
    case 2 => Silver
    case 3 => Bronze
    case _ => Secondary
  }

  /** `getRankIcon`; `None` is the `null` the source returns. */
  function RankIcon(rank: int): (i: Option<Icon>)
    ensures i == Some(Trophy) <==> rank == 1
    ensures i == Some(Medal) <==> rank == 2 || rank == 3
    ensures i.None? <==> !(1 <= rank <= 3)
  {
    match rank
    case 1 => Some(Trophy)
    case 2 => Some(Medal)
    case 3 => Some(Medal)
    case _ => None
  }

  /** The badge carries an icon exactly when it has a podium colour, and the
      trophy goes with gold. */
  lemma IconMatchesVariant(rank: int)
    ensures RankIcon(rank).Some? <==> RankVariant(rank) != Secondary
    ensures RankIcon(rank) == Some(Trophy) <==> RankVariant(rank) == Gold
  {
  }

  /** The progress bar towards the next rank: shown for every team but the
      leader, so for positive ranks it is missing exactly on the gold card. */
  predicate ShowsProgressBar(rank: int): (r: bool)
    ensures r <==> rank >= 1 && RankVariant(rank) != Gold
  {
    rank > 1
  }

  /** The suffix after "membre" / "badge": "s" for counts above one. */
  function PluralSuffix(count: int): (s: string)
    ensures s == "s" <==> count > 1
    ensures s == "" <==> count <= 1
  {
    if count > 1 then "s" else ""
  }

  /** The badge count: shown only for a team whose achievements are present
      and non-empty, with its suffix. */
  function BadgeCount(achievements: Option<seq<TeamAchievement>>): (r: Option<(nat, string)>)
    ensures r.None? <==> achievements.None? || achievements.value == []
    ensures r.Some? ==> r.value.0 == |achievements.value| > 0
    ensures r.Some? ==> (r.value.1 == "s" <==> |achievements.value| > 1)
  {
    match achievements
    case None => None
    case Some(list) => if |list| > 0 then Some((|list|, PluralSuffix(|list|))) else None
  }

  /** Everything a card decides from its inputs. */
  datatype CardView = CardView(
    team: LeaderboardTeam,
    indicator: Option<Indicator>,
    variant: Variant,
    icon: Option<Icon>,
    memberSuffix: string,
    badges: Option<(nat, string)>,
    progressBar: bool)

  function Card(team: LeaderboardTeam, previousRank: Option<int>): (c: CardView)
    ensures c.team == team
    ensures c.indicator.Some? <==> RankChanged(previousRank, team.rank)
    ensures c.indicator == RankIndicator(previousRank, team.rank)
    ensures c.badges == BadgeCount(team.achievements)
    ensures c.variant == RankVariant(team.rank) && c.icon == RankIcon(team.rank)
    ensures c.memberSuffix == PluralSuffix(team.memberCount)
    ensures c.progressBar <==> team.rank > 1
  {
    CardView(team, RankIndicator(previousRank, team.rank), RankVariant(team.rank), RankIcon(team.rank),
             PluralSuffix(team.memberCount), BadgeCount(team.achievements), ShowsProgressBar(team.rank))
  }
}

/**
 * The part of the game client's `allgamedata` response that the tracker
 * reads, and the stages in which it reads it.  A key that is missing from
 * the JSON is a `None`; reading it raises inside `update_stats`, and the
 * tracker catches that at the end of the tick.
 */
module ApiData {
  import opened Wrappers

  /** `scores` of a player: `creepScore` and `kills`. */
  datatype Scores = Scores(creepScore: Option<int>, kills: Option<int>)

  /** One entry of `allPlayers`. */
  datatype Player = Player(riotId: Option<string>, scores: Option<Scores>)

  /**
   * `activePlayer`: `resourceValue` stands for
   * `activePlayer["championStats"]["resourceValue"]` and is None when either
   * key is missing.
   */
  datatype ActivePlayer = ActivePlayer(resourceValue: Option<real>, riotId: Option<string>)

  /** A response that Python reads as true (a non-empty JSON document). */
  datatype Sample = Sample(activePlayer: Option<ActivePlayer>, allPlayers: Option<seq<Player>>)

  /** The absolute scores of the active player taken from one sample. */
  datatype ScoreReading = ScoreReading(cs: int, kills: int)

  /**
   * Player `k` is the one the generator in `update_stats` stops at: its
   * `riotId` is `id`, and every player before it has a `riotId` (otherwise
   * reading it raises) that differs from `id`.
   */
  ghost predicate FirstMatchAt(players: seq<Player>, id: string, k: int)
    requires 0 <= k < |players|
  {
    && players[k].riotId == Some(id)
    && forall j :: 0 <= j < k ==> players[j].riotId.Some? && players[j].riotId != Some(id)
  }

  /**
   * `next(player for player in allPlayers if player["riotId"] == id)`:
   * the players are inspected in order and lazily, so a player after the
   * match is never read.  None stands for both StopIteration (no match) and
   * the KeyError of a player without `riotId` met before the match.
   */
  function FindPlayer(players: seq<Player>, id: string): (r: Option<Player>)
    ensures r.Some? ==> exists k :: 0 <= k < |players| && FirstMatchAt(players, id, k) && r.value == players[k]
    ensures forall k :: 0 <= k < |players| && FirstMatchAt(players, id, k) ==> r == Some(players[k])
    decreases |players|
  {
    if players == [] then None
    else
      match players[0].riotId
      case None => None
      case Some(pid) =>
        if pid == id then Some(players[0])
        else
          var rest := FindPlayer(players[1..], id);
          assert forall k :: 1 <= k < |players| && FirstMatchAt(players, id, k) ==> FirstMatchAt(players[1..], id, k - 1);
          assert rest.Some? ==> exists k :: 1 <= k < |players| && FirstMatchAt(players, id, k) && rest.value == players[k] by {
            if rest.Some? {
              var k' :| 0 <= k' < |players[1..]| && FirstMatchAt(players[1..], id, k') && rest.value == players[1..][k'];
              assert FirstMatchAt(players, id, k' + 1);
            }
          }
          rest
  }

  /**
   * First stage of `update_stats`: `data["activePlayer"]["championStats"]["resourceValue"]`.
   * None means the read raised before the baseline was touched.
   */
  function ReadMana(data: Sample): (r: Option<real>)
    ensures r.Some? <==> data.activePlayer.Some? && data.activePlayer.value.resourceValue.Some?
    ensures r.Some? ==> r.value == data.activePlayer.value.resourceValue.value
  {
    match data.activePlayer
    case None => None
    case Some(ap) => ap.resourceValue
  }

  /**
   * Second stage of `update_stats`: the active player's `riotId`, the first
   * matching entry of `allPlayers`, then its `creepScore` and `kills`.  Both
   * scores are read before either is stored, so None means neither is.
   */
  function ReadScores(data: Sample): (r: Option<ScoreReading>)
    ensures r.Some? ==>
      && data.activePlayer.Some? && data.activePlayer.value.riotId.Some?
      && data.allPlayers.Some?
      && exists k :: 0 <= k < |data.allPlayers.value|
           && FirstMatchAt(data.allPlayers.value, data.activePlayer.value.riotId.value, k)
           && data.allPlayers.value[k].scores == Some(Scores(Some(r.value.cs), Some(r.value.kills)))
  {
    match data.activePlayer
    case None => None
    case Some(ap) =>
      match ap.riotId
      case None => None
      case Some(id) =>
        match data.allPlayers
        case None => None
        case Some(players) =>
          match FindPlayer(players, id)
          case None => None
          case Some(p) =>
            match p.scores
            case None => None
            case Some(sc) =>
              match sc.creepScore
              case None => None
              case Some(cs) =>
                match sc.kills
                case None => None
                case Some(kills) => Some(ScoreReading(cs, kills))
  }

  /**
   * The scores are read from exactly the player the generator stops at:
   * when that player carries both scores they are the reading.
   */
  lemma ReadScoresOfFirstMatch(data: Sample, k: int, cs: int, kills: int)
    requires data.activePlayer.Some? && data.activePlayer.value.riotId.Some?
    requires data.allPlayers.Some? && 0 <= k < |data.allPlayers.value|
    requires FirstMatchAt(data.allPlayers.value, data.activePlayer.value.riotId.value, k)
    requires data.allPlayers.value[k].scores == Some(Scores(Some(cs), Some(kills)))
    ensures ReadScores(data) == Some(ScoreReading(cs, kills))
  {
  }
}

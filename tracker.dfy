/**
 * `LeagueTracker` without its window, HTTP client and keyboard hook: the
 * fields the core changes in place and the methods that change them, each
 * proved to follow the matching step function of `TrackerSpec`.
 */
module Tracker {
  import opened Wrappers
  import opened ApiData
  import opened History
  import opened TrackerSpec

  class LeagueTracker {
    var ultCount: nat
    var currentCs: int
    var currentKills: int
    var lastMana: Option<real>
    var lastRPress: Option<real>
    var gameStarted: bool
    var connectedToGame: bool
    var history: seq<Record>
    var averages: Averages

    /** The tracker's fields as one value. */
    ghost function State(): TrackerState
      reads this
    {
      TrackerState(ultCount, currentCs, currentKills, lastMana, lastRPress,
                   gameStarted, connectedToGame, history, averages)
    }

    ghost predicate Valid()
      reads this
    {
      Inv(State())
    }

    /** `__init__`, given the records the history file held (none when it was missing or corrupt). */
    constructor (loaded: seq<Record>)
      ensures Valid()
      ensures State() == Initial(loaded)
    {
      ultCount, currentCs, currentKills := 0, 0, 0;
      lastMana, lastRPress := None, None;
      gameStarted, connectedToGame := false, false;
      history := loaded;
      averages := Averages(0.0, 0.0, 0.0);
      new;
      averages := CalculateAverages();
    }

    /** `handle_keypress`: an 'r' press becomes the pending press. */
    method HandleKeypress(name: string, now: real)
      requires Valid()
      modifies this
      ensures Valid()
      ensures State() == AfterKeypress(old(State()), name, now)
    {
      if name == "r" {
        lastRPress := Some(now);
      }
    }

    /** `calculate_averages`: the per-field mean of the history, 0 for an empty one. */
    method CalculateAverages() returns (a: Averages)
      ensures a == AveragesOf(history)
    {
      if |history| == 0 {
        return Averages(0.0, 0.0, 0.0);
      }
      var totalUlt, totalCs, totalKills := 0, 0, 0;
      for i := 0 to |history|
        invariant totalUlt == Total(history[..i], Ult)
        invariant totalCs == Total(history[..i], Cs)
        invariant totalKills == Total(history[..i], Kills)
      {
        var game := history[i];
        assert history[..i + 1] == history[..i] + [game];
        TotalAppend(history[..i], game, Ult);
        TotalAppend(history[..i], game, Cs);
        TotalAppend(history[..i], game, Kills);
        totalUlt := totalUlt + game.ult.GetOr(0);
        totalCs := totalCs + game.cs.GetOr(0);
        totalKills := totalKills + game.kills.GetOr(0);
      }
      assert history[..|history|] == history;
      var count := |history| as real;
      a := Averages(totalUlt as real / count, totalCs as real / count, totalKills as real / count);
    }

    /** `reset_stats`. */
    method ResetStats()
      modifies this
      ensures State() == AfterReset(old(State()))
    {
      ultCount := 0;
      currentCs := 0;
      currentKills := 0;
      lastMana := None;
      lastRPress := None;
    }

    /** `save_game_stats`: appends the current game if one was started. */
    method SaveGameStats(epoch: real)
      modifies this
      ensures State() == AfterSaveGameStats(old(State()), epoch)
    {
      if gameStarted {
        history := history + [Record(Some(TruncateToInt(epoch)), Some(ultCount), Some(currentCs), Some(currentKills))];
      }
    }

    /**
     * `update_stats`: the ult detector, then the scores.  A read that raises
     * returns early, keeping what was stored before it.
     */
    method UpdateStats(data: Sample, now: real)
      modifies this
      ensures State() == AfterUpdateStats(old(State()), data, now)
    {
      var mana := ReadMana(data);
      if mana.None? {
        return;
      }
      var currentMana := mana.value;
      if lastMana.Some? {
        var manaChange := lastMana.value - currentMana;
        if Abs(manaChange - LUX_ULT_MANA_COST) < MANA_TOLERANCE {
          var inWindow := false;
          if lastRPress.Some? {
            var timeSinceR := now - lastRPress.value;
            inWindow := timeSinceR < R_PRESS_WINDOW;
          }
          if inWindow {
            ultCount := ultCount + 1;
            lastRPress := None;
          }
        }
      }
      lastMana := Some(currentMana);
      var scores := ReadScores(data);
      if scores.None? {
        return;
      }
      currentCs := scores.value.cs;
      currentKills := scores.value.kills;
    }

    /**
     * One tick of `update_overlay`: data starts or continues a game; no
     * data ends the game that was running, saving its record.
     */
    method UpdateOverlay(data: Option<Sample>, now: real, epoch: real)
      requires Valid()
      modifies this
      ensures Valid()
      ensures State() == AfterUpdateOverlay(old(State()), data, now, epoch)
    {
      if data.Some? {
        if !connectedToGame {
          connectedToGame := true;
          gameStarted := true;
          ResetStats();
        }
        UpdateStats(data.value, now);
      } else if connectedToGame {
        history := history + [Record(Some(TruncateToInt(epoch)), Some(ultCount), Some(currentCs), Some(currentKills))];
        ResetStats();
        averages := CalculateAverages();
        connectedToGame := false;
        gameStarted := false;
      }
      StepInv(old(State()), Polled(data, now, epoch));
    }

    /** `on_close`: saves the running game, if any, before the tracker goes away. */
    method OnClose(epoch: real)
      requires Valid()
      modifies this
      ensures State() == AfterClose(old(State()), epoch)
      ensures old(connectedToGame) ==> history == old(history) + [SessionRecord(old(State()), epoch)]
      ensures !old(connectedToGame) ==> history == old(history)
    {
      if connectedToGame {
        SaveGameStats(epoch);
      }
      CloseSavesOnce(old(State()), epoch);
    }
  }
}

# LoL stats tracker: ult detector and session lifecycle

A model of the core of `LeagueTracker` (`ults.py`), an overlay that counts how
often the player used Lux's ultimate during a League of Legends game and
shows it next to the game's creep score and kills and the averages of earlier
games.

The game client gives no "ult used" signal. The tracker infers one on every
polling tick. The drop in mana since the previous sample must be within 10
of the ult's cost of 100, and an 'r' key press must have happened less than
0.5 s earlier. A counted ult consumes the press. Each sample whose mana
could be read becomes the new baseline.

Around the detector there is a two-state session machine driven by
`connected_to_game`:
- The first tick with data starts a game: counters, baseline and pending press are reset.
- The first tick without data ends it: one `{timestamp, ult, cs, kills}` record is appended to the history, the counters are reset and the averages are recomputed.
- Closing the window while a game runs saves that game's record.

Files:
- `wrappers.dfy`: `Option`, for Python's `None` and for missing JSON keys.
- `api_data.dfy`: the part of the client's response the tracker reads (`ActivePlayer`, `Player`, `Scores`, `Sample`). It also has the two stages in which `update_stats` reads it (`ReadMana`, `ReadScores`) and the lazy search of `allPlayers` (`FindPlayer`).
- `history.dfy`: the history records, `dict.get(key, 0)`, totals and means (`AveragesOf`), and the truncation `int(time.time())`.
- `tracker_spec.dfy`: the tracker's fields as a value (`TrackerState`), one step function per operation (`AfterKeypress`, `AfterReset`, `AfterSaveGameStats`, `AfterUpdateStats`, `AfterUpdateOverlay`, `AfterClose`), runs of events, the reachable-state invariant `Inv`, and the lemmas.
- `tracker.dfy`: the class `LeagueTracker` with the source's fields and methods, each method proved to produce exactly the state its step function gives.

Time enters as parameters. `now` stands for `datetime.now()`, as seconds on the clock the key handler also uses. `epoch` stands for `time.time()`. Mana and times are `real`.

Where the code's behaviour differs from the system's stated design, the model follows the code:
- A sample whose mana cannot be read changes nothing. The old baseline is kept; it is not cleared.
- A sample that fails after the baseline was stored (a missing `riotId`, no matching player, missing scores) still counts its ult and moves the baseline. Only `cs` and `kills` stay as they were.
- Closing while a game runs only appends the record (`save_game_stats`). It does not reset the counters, recompute the averages or clear the flags.
- The record appended at the end of a game is built from `connected_to_game`. `save_game_stats` checks `game_started`. The invariant `Inv` shows the two flags always agree.

## Model

| member | source | states |
|---|---|---|
| ApiData.FindPlayer | ults.py:185-189 | returns player k exactly when k is the first player whose `riotId` equals the active one and every earlier player has a different `riotId`; None when there is no such player |
| ApiData.ReadMana | ults.py:150-152 | succeeds exactly when `activePlayer` and its resource value are present, and then yields that value |
| ApiData.ReadScores | ults.py:185-193 | a successful reading's cs and kills are the `creepScore` and `kills` of the first player matching the active `riotId` |
| ApiData.ReadScoresOfFirstMatch | ults.py:186-193 | conversely, when the first matching player carries both scores, those are the reading |
| History.Mean | ults.py:104-109 | 0 for an empty history; otherwise the mean times the record count is the field's total |
| History.TotalAppend | ults.py:98-102 | one more record adds its value, a missing key counting 0, to the total |
| History.TotalBounds | ults.py:98-102 | values all in [lo, hi] give a total in [n·lo, n·hi] |
| History.MeanBounds | ults.py:94-109 | the average of a non-empty history lies between the smallest and the largest value |
| History.MeanAppend | ults.py:246-256 | the average after appending a game, times the new count, is the old average times the old count plus the new value |
| History.TruncateToInt | ults.py:247 | `int(time.time())` truncates toward zero: the result is within 1 of the clock and on the zero side of it |
| TrackerSpec.Baseline | ults.py:155-182 | a sample whose mana was read becomes the new baseline whether or not an ult was counted; with no baseline no ult is counted and the press is kept |
| TrackerSpec.MismatchedDrop | ults.py:167-168 | a drop not within 10 of 100 leaves the ult count and the pending press unchanged, whatever the press |
| TrackerSpec.MatchCounts | ults.py:168-175 | a matching drop with a press less than 0.5 s ago raises the ult count by exactly 1 and clears the press |
| TrackerSpec.StrictWindow | ults.py:169-180 | with no press, or a press 0.5 s or more ago, nothing is counted and the press is kept |
| TrackerSpec.SecondDropNotCounted | ults.py:173-175 | after a counted ult, a second matching drop with no new press counts nothing |
| TrackerSpec.UltCountStep | ults.py:173-174 | a sample raises the ult count by 0 or 1 and never lowers it |
| TrackerSpec.ScoresAbsolute | ults.py:185-202 | cs and kills become the sample's absolute scores when both stages read; otherwise they stay as they were |
| TrackerSpec.MalformedBeforeBaseline | ults.py:150-213 | a sample whose mana cannot be read leaves the whole state unchanged |
| TrackerSpec.MalformedAfterBaseline | ults.py:182-213 | a sample whose scores cannot be read still runs the detector and moves the baseline, but keeps cs and kills |
| TrackerSpec.SessionStart | ults.py:222-233 | the first tick with data sets both flags, resets counters, baseline and press before processing the sample, ends with ult count 0 and no press, and leaves the history alone |
| TrackerSpec.SessionEnd | ults.py:236-258 | the first tick without data appends exactly one record holding the pre-tick ult, cs and kills, sets the averages to those of the new history, resets every counter and clears both flags |
| TrackerSpec.IdleNoData | ults.py:235-265 | a tick without data while Idle changes nothing |
| TrackerSpec.DataKeepsSession | ults.py:222-233 | a tick with data, malformed or not, leaves the tracker connected and the history unchanged; while Active it only updates the stats and never lowers the ult count |
| TrackerSpec.CloseSavesOnce | ults.py:277-280 | closing while Active appends exactly the current game's record; closing while Idle changes nothing; the ult count is kept |
| TrackerSpec.InitialInv | ults.py:20-32 | the freshly constructed tracker satisfies the invariant: flags agree, averages are the history's, counters cleared while Idle |
| TrackerSpec.StepInv | ults.py:218-258 | every key press and every tick keep the invariant |
| TrackerSpec.RunInv | ults.py:218-258 | every sequence of key presses and ticks keeps the invariant, so the averages are always the means of exactly the recorded games |
| TrackerSpec.HistoryAppendOnly | ults.py:246 | the history before any sequence of events is a prefix of the history after it |
| TrackerSpec.StepPresses | ults.py:70-78 | one event raises ult count plus pending press by at most the one 'r' press it may be |
| TrackerSpec.UltsBoundedByPresses | ults.py:70-175 | over any sequence of events the ult count plus the pending press grows by at most the number of 'r' presses |
| TrackerSpec.ActiveRunMonotone | ults.py:222-233 | a sequence of events whose ticks all carry data keeps the session Active, never lowers the ult count and leaves the history unchanged |
| TrackerSpec.ScenarioDetection | ults.py:155-180 | mana 500 to 402 at 0.2 s after a press at 0 s counts one ult; a further drop to 301 with no new press leaves the count at 1 |
| TrackerSpec.ScenarioSessionEnd | ults.py:236-258 | three ticks without data after a game with 4 ults, 50 cs and 2 kills append one record {4, 50, 2} and reset the counters |
| Tracker.LeagueTracker.constructor | ults.py:20-36 | the tracker starts Idle with cleared counters, the loaded history and its averages, and satisfies the invariant |
| Tracker.LeagueTracker.HandleKeypress | ults.py:70-78 | an 'r' press replaces the pending press with its time; any other key changes nothing; the invariant is kept |
| Tracker.LeagueTracker.CalculateAverages | ults.py:94-109 | returns the per-field means of the history, missing keys read as 0, and 0 for an empty history |
| Tracker.LeagueTracker.ResetStats | ults.py:111-117 | clears ult count, cs, kills, mana baseline and pending press; nothing else changes |
| Tracker.LeagueTracker.SaveGameStats | ults.py:119-130 | appends the current game's record exactly when a game was started; nothing else changes |
| Tracker.LeagueTracker.UpdateStats | ults.py:143-213 | the new state is the detector's step followed by the score update; a read that fails keeps what was stored before it |
| Tracker.LeagueTracker.UpdateOverlay | ults.py:218-265 | the new state is one session-machine step of the old one; the invariant is kept |
| Tracker.LeagueTracker.OnClose | ults.py:277-282 | appends the current game's record exactly when connected; nothing else changes |

## Left out

- The HTTP request to the game client and the suppression of TLS warnings (`get_api_data`). The model takes its result as a parameter: a `Sample`, or None for every response Python reads as false (no response, a non-200 status, a failed request, an empty JSON document).
- The tkinter overlay: window set-up and position, the label texts, `root.after` scheduling, `mainloop` and `run`. They only display or schedule.
- The outer `except` of `update_overlay`. Once saving is a no-op nothing in the modelled tick can raise there.
- The keyboard hook's registration and `keyboard.unhook_all`. A key press is a call of `HandleKeypress` between ticks. The hook thread's concurrency with the tick is not modelled.
- Reading and writing the history file (`load_history`, `save_history`, `Path.touch`). The constructor takes the loaded records and saving is a no-op. A write failure would leave a game appended but still connected, so the next empty tick would append it again; this is not modelled. A history file without a "games" key is not modelled either.
- Wrongly typed JSON values, such as a non-numeric `resourceValue`, or a non-integer score that makes the `:2d` formatting raise after the scores were stored. The model treats only missing keys as malformed.
- Debug output and tracebacks. `DEBUG` is taken to be on, so the tick's time is always defined.
- Floating point: mana and times are exact reals, and the microsecond resolution of `datetime` is not modelled.
- `root.destroy` in `on_close`.

# Pit Stop economy and save files, in Dafny

This project models the core of a small incremental game implemented in
Python. One game object holds currency, three upgrade tracks (number of gas
pumps, pump level, store level), an income rate, remodel and prestige counts,
and two multipliers. It offers:

- three cost curves of the form `ceil(base * rate^(level - 1))`;
- three guarded purchases;
- an income recomputation, and a tick that accrues income over some seconds;
- a soft reset (remodel) and a hard reset (prestige).

The save manager writes the game's record to a main save file and to a
backup named after the current second. Each file is written through a
temporary file that is renamed over the target. It then prunes the backups to
a retention limit and can load the main file back.

Modules, one per concern:

- `Json` (json.dfy): field values and field-named records.
- `RealMath` (real_math.dfy): exact stand-ins for `**` with an integer
  exponent, `math.ceil` and `int()` on a float.
- `Names` (names.dfy): Python's string order and `sorted`, and the decimal
  form of an integer with its parser.
- `Engine` (engine.dfy): the game. Each operation is first written as a
  function on a value record `GameState`: `Purchased`, `WithIncome`, `Ticked`,
  `Remodelled`, `Prestiged`. The class `PitStopGame` has the source's fields,
  and its methods update them in place. Every method is proved to produce
  exactly what its function says. The properties are proved about the
  functions, one call at a time and over whole sequences of operations (`Run`).
- `SaveManager` (save_manager.dfy): the file system is a class holding a map
  from path to text, plus the set of paths the OS refuses to delete.
  `WriteAtomic`, `ListBackups`, `TrimBackups`, `SaveGame` and `LoadGame`
  act on it.
- `RoundTrip` (round_trip.dfy): saving a game and building a new game from
  the loaded record gives back every field.

Numbers are exact reals, not IEEE doubles. `1.15 ** k` is the recursive
`Pow` (with a reciprocal for a negative exponent, which a hydrated zero pump
count would produce). `math.ceil` is written via `Floor`.

Backups are pruned in name order. The source sorts backup paths, all in one
directory, so the comparison is code point by code point on the file names.
While the seconds have the same number of digits, name order is time order
(`BackupOrder`), so pruning keeps the most recent backups. Across a change in
digit count it does not: `save_1000.json` sorts before `save_999.json`
(`BackupOrderAcrossDigitCounts`).

The model follows the code on these points:

- costs use `level - 1` as the exponent;
- there are only the three tracks;
- fractional currency is kept, with no rounding policy;
- backups are ordered by name, not by timestamp.

## Model

| member | source | states |
|---|---|---|
| `Engine.Hydrate` | core/game_engine.py:20-21 | with no data the defaults; with a record, the defaults overlaid by it, also when the record is empty, so the `if data:` guard makes no difference to the result |
| `Engine.HydrateDefaults` | core/game_engine.py:6-21 | with no data, or an empty record, a game has currency 0, one pump at level 1, store level 1, income 0, both counts 0 and both multipliers 1, and is valid |
| `Engine.HydrateOverlay` | core/game_engine.py:20-21 | for every field, a value the record supplies (of an accepted kind) becomes the field's value, and an absent one leaves the default |
| `Engine.HydrateStateRecord` | core/game_engine.py:20-21 | hydrating from a state's own record gives that state back |
| `Engine.StateRecord` | core/game_engine.py:89-90 | the record has exactly the nine field names, reals for the four number fields, integers for the five counts |
| `Engine.PumpCostAt` | core/game_engine.py:24-26 | the next pump costs at least 1, and at least 50 once a pump is owned |
| `Engine.UpgradePumpCostAt` | core/game_engine.py:28-29 | the next pump level costs at least 1, and at least 10 from level 1 on |
| `Engine.UpgradeStoreCostAt` | core/game_engine.py:31-32 | the next store level costs at least 1, and at least 20 from level 1 on |
| `Engine.CostCurveGrows` | core/game_engine.py:24-32 | on a curve with rate at least 1 and base·(rate−1) at least 1, each level costs strictly more than the one before |
| `Engine.CostsOfLevels` | core/game_engine.py:24-32 | a fresh game's prices are 50, 10 and 20, and all three prices rise strictly with their level |
| `Engine.PitStopGame.PumpCost` | core/game_engine.py:24-26 | the price `PumpCostAt` gives for the current pump count: at least 1, and at least 50 once a pump is owned |
| `Engine.PitStopGame.UpgradePumpCost` | core/game_engine.py:28-29 | the price `UpgradePumpCostAt` gives for the current pump level: at least 1, and at least 10 from level 1 on |
| `Engine.PitStopGame.UpgradeStoreCost` | core/game_engine.py:31-32 | the price `UpgradeStoreCostAt` gives for the current store level: at least 1, and at least 20 from level 1 on |
| `Engine.Purchased` | core/game_engine.py:44-66 | a purchase succeeds iff currency ≥ cost; on success exactly the cost is subtracted, only the bought track rises by one, and income, counts and multipliers stay; on failure nothing changes; non-negative currency stays non-negative; validity is kept |
| `Engine.BuyFirstPump` | core/game_engine.py:52-58 | a fresh game holding exactly 50 buys its second pump and is left with 0 |
| `Engine.IncomeOf` | core/game_engine.py:35-37 | the income of a valid game is at least 3 per second |
| `Engine.WithIncome` | core/game_engine.py:35-37 | recomputing income changes only the income field, and on a valid game sets it to at least 3 |
| `Engine.Ticked` | core/game_engine.py:39-41 | a tick recomputes income and changes nothing but income and currency; currency grows by exactly the new income times the seconds; with seconds ≥ 0 a valid game stays valid and its currency never decreases |
| `Engine.FreshTick` | tests/test_engine.py:3-7 | a fresh game's income is 3, and `tick(5)` adds exactly 15 |
| `Engine.TicksAdd` | core/game_engine.py:39-41 | ticking a seconds and then b seconds is the same as ticking a + b seconds |
| `Engine.TickRepeatedlyIsTick` | core/game_engine.py:39-41 | n one-second ticks reach the same state as one n-second tick |
| `Engine.Remodelled` | core/game_engine.py:68-76 | a remodel returns the new remodel multiplier, which is the old one times 1.1; it zeroes currency, puts every track at 1, adds one remodel, and leaves the prestige fields and income as they were; a valid game stays valid and its multiplier rises |
| `Engine.Prestiged` | core/game_engine.py:78-87 | a prestige zeroes currency, puts every track at 1, clears the remodel count and multiplier to 0 and 1, doubles the prestige multiplier, adds one prestige, and leaves income; a valid game stays valid and the prestige multiplier rises |
| `Engine.FreshResets` | tests/test_engine.py:9-21 | on a fresh game a remodel gives multiplier 1.1 and positive income at the next tick; a prestige gives prestige multiplier 2, remodel multiplier 1, and otherwise the fresh fields |
| `Engine.RunKeepsValid` | core/game_engine.py:39-87 | any sequence of purchases, recomputations, forward ticks and resets keeps a valid game valid, so currency never goes negative |
| `Engine.RunKeepsMultipliersEarned` | core/game_engine.py:68-87 | after any sequence of operations the remodel multiplier is 1.1 to the power of the remodel count and the prestige multiplier is 2 to the power of the prestige count, provided this held at the start (it holds for a fresh game) |
| `Engine.RunNeverLowersPrestige` | core/game_engine.py:78-87 | no sequence of operations lowers the prestige multiplier or the prestige count |
| `Engine.PitStopGame.constructor` | core/game_engine.py:6-21 | the new object's fields are the hydration of the supplied data (no data when omitted) |
| `Engine.PitStopGame.CalculateIncome` | core/game_engine.py:35-37 | the fields afterwards are `WithIncome` of the fields before |
| `Engine.PitStopGame.Tick` | core/game_engine.py:39-41 | the fields afterwards are `Ticked` of the fields before (one second when omitted) |
| `Engine.PitStopGame.UpgradeGasPump` | core/game_engine.py:44-50 | result and new fields are `Purchased` on the pump-level track |
| `Engine.PitStopGame.BuyGasPump` | core/game_engine.py:52-58 | result and new fields are `Purchased` on the pump-count track |
| `Engine.PitStopGame.UpgradeStore` | core/game_engine.py:60-66 | result and new fields are `Purchased` on the store track |
| `Engine.PitStopGame.Remodel` | core/game_engine.py:68-76 | returned multiplier and new fields are `Remodelled` of the fields before |
| `Engine.PitStopGame.Prestige` | core/game_engine.py:78-87 | the fields afterwards are `Prestiged` of the fields before |
| `Engine.PitStopGame.GetState` | core/game_engine.py:89-90 | returns the record of the current fields, and hydrating that record gives the same fields back |
| `RealMath.Pow` | core/game_engine.py:26 | a positive base gives a positive power; a base of at least 1 gives a power of at least 1 |
| `RealMath.IntPow` | core/game_engine.py:24-32 | any integer power of a positive base is positive, and non-negative powers of a base ≥ 1 are at least 1 |
| `RealMath.IntPowSucc` | core/game_engine.py:24-32 | raising the exponent by one multiplies by the base, for negative exponents too |
| `RealMath.Ceil` | core/game_engine.py:24-32 | the ceiling is the least integer not below its argument |
| `RealMath.Trunc` | core/save_manager.py:41 | `int()` rounds towards zero: it is never farther from zero than its argument, and within one of it |
| `Names.NameLeqTransitive` | core/save_manager.py:18 | the name order used by `sorted` is transitive |
| `Names.NameLeqAntisymmetric` | core/save_manager.py:18 | two names each no greater than the other are equal |
| `Names.Sort` | core/save_manager.py:18 | the sorted list is in ascending name order and is a permutation of the input |
| `Names.SortedListingUnique` | core/save_manager.py:18 | a set has only one ascending listing, so the sorted backups do not depend on the directory's listing order |
| `Names.ParseNatString` | core/save_manager.py:41 | reading back the decimal digits of a number gives the number |
| `Names.IntStringInjective` | core/save_manager.py:41 | two integers have the same decimal form iff they are equal |
| `Names.NatStringOrder` | core/save_manager.py:18-20 | for numbers with the same count of digits, their decimal strings are in the same order as the numbers |
| `SaveManager.ToWrite` | core/save_manager.py:30-34 | the written record has the state's keys plus `_schema_version` = 1 and `_saved_at` = the save time, the metadata overriding same-named keys, and every other state entry unchanged |
| `SaveManager.PathKinds` | core/save_manager.py:18-18 | every backup a save writes matches the pruning's `save_*.json` pattern; the main save file and temporary files never do |
| `SaveManager.BackupPathInjective` | core/save_manager.py:41 | two saves get the same backup name iff they fall in the same second |
| `SaveManager.LaterWriteWins` | core/save_manager.py:41-42 | writing the same path twice leaves the later text only |
| `SaveManager.BackupOrder` | core/save_manager.py:18-20 | for seconds with the same count of digits, backup name order is time order |
| `SaveManager.BackupOrderAcrossDigitCounts` | core/save_manager.py:18-20 | the backup of second 1000 sorts before that of second 999 |
| `SaveManager.FileSystem.WriteText` | core/save_manager.py:14 | the path now holds the text; every other file is unchanged |
| `SaveManager.FileSystem.Replace` | core/save_manager.py:15 | the destination now holds what the source file held, the source file is gone, and every other file is unchanged |
| `SaveManager.FileSystem.Unlink` | core/save_manager.py:21-24 | a deletion succeeds iff the file exists and may be deleted; only then is the file gone |
| `SaveManager.WriteAtomic` | core/save_manager.py:12-15 | afterwards the path holds the text and the temporary file is gone; nothing else changes |
| `SaveManager.ListBackups` | core/save_manager.py:18 | lists each backup on disk exactly once |
| `SaveManager.TrimBackups` | core/save_manager.py:17-24 | removal attempts plus kept names are the ascending listing of the backups; every removed name sorts below every kept one; for limit ≥ 0 it makes max(0, n − limit) attempts and keeps min(n, limit); at most `limit` backups means nothing is removed; a negative limit ends in the error; exactly the attempted files that could be deleted are gone |
| `SaveManager.SaveGame` | core/save_manager.py:26-43 | the main save file holds the record plus metadata; the backup for the current second holds the same text unless pruned; the files afterwards are both writes minus what pruning deleted; pruning saw every backup including the new one; an error iff the limit is negative; otherwise it keeps min(n, limit) of the n backups and tries to delete the other max(0, n − limit) |
| `SaveManager.LoadGame` | core/save_manager.py:45-48 | no save iff the main file is missing; otherwise its parsed record, or a parse error for unreadable text |
| `RoundTrip.SavedRecordHydrates` | core/save_manager.py:30-35 | the record a save writes hydrates back into exactly the saved state; the metadata keys are ignored |
| `RoundTrip.SaveAndRestore` | core/save_manager.py:26-48 | snapshot, save, load and construct a new game: the new game has every field of the saved one, for any retention limit |

## Left out

- Floating point: all arithmetic is exact reals, so `1.15 ** k`, `*= 1.10` and `*= 2.0` are not rounded as IEEE doubles, and no bit-exact result is claimed.
- Engine.PitStopGame.GetState: returns a value record (a copy), while the source returns the object's live `__dict__`, through which a caller could change the game.
- Engine.Hydrate, Engine.HydrateOverlay, Engine.PitStopGame.constructor: only the nine known fields are read. Unknown keys are dropped; the source adds them to the object, and they reappear in `get_state` and in the next save (including the loaded `_schema_version` and `_saved_at`). A value of the wrong kind (a string, or a real for a count) keeps the default; the source would store it as is. An integer currency becomes a real with the same value.
- Serialisation: `json.dumps`/`json.loads` are a lossless pair (`Dumps`, and `LoadGame` reading `Serialized`); JSON text is not modelled. A file that does not parse gives `ParseError` where the source raises. JSON that parses to something other than an object is counted as unreadable.
- `mkdir` of the save and backup directories: directories exist implicitly as path prefixes.
- `time.time()`: the two clock readings in a save (saved-at time and backup second) are parameters.
- Write failures (disk full, permissions) on the temporary file or the rename are not modelled; writes always succeed. Only deletions can fail.
- SaveManager.SaveGame: states the files after the whole save, not the intermediate states a crash between the temporary write and the rename would leave.
- SaveManager.FileSystem.Replace: requires the source file to exist; the only caller has just written it.
- Glob matching: a backup is a path directly in `data/saves` whose name starts with `save_` and ends with `.json`. Other glob subtleties (hidden files, case) are not modelled. The directory listing order is arbitrary (`ListBackups`) and then sorted.
- Path comparison: paths are compared as whole strings. All backups share the directory prefix, so this equals the source's comparison of the final name (`NameLeqCommonPrefix`).
- The threads, lock and schedule of main.py, the terminal loop of cli/cli_main.py and the window of gui/main_gui.py: concurrency, I/O and presentation. Their only use of the core is to call the operations modelled here.
- Settings loading in main.py: the retention limit is a parameter (10 when omitted, as in the source).
- SaveManager.SaveGame: the two clock readings come before the retention limit among the parameters, so that the limit can keep its default of 10.

# PEAK FINDER 2 — a Dafny model of the game core

PEAK FINDER 2 is a browser game. The player is an optimizer climbing a terrain of
Gaussian peaks. Each jump is a step of SGD, Momentum, RMSprop or Adam, and its size
follows a learning-rate schedule: Fixed, Step Decay, Warmup or Cosine. All of the
game lives in `game.js`. This project models its core logic:

- the catalog of 110 levels (`generateLevels`);
- the terrain generator, with its eight archetypes, and the height function
  (`TerrainGenerator`);
- the player's jump, with its four optimizer updates, and the keyboard and d-pad
  mappings (`jump`, `handleInput`, `dpadJump`);
- the autonomous optimizer run that proves a level winnable (`_simulateOptimizer`,
  `verifyLevel`);
- the 5×15 search for a terrain and spawn point, with its fallback
  (`generateTerrainForLevel`);
- the star rating, progress bookkeeping, level unlocking, the ranking and the
  player's name (`win`, `showLevelSelect`, `startGame`, `saveRanking`,
  `setPlayerName`).

The model uses `real` arithmetic throughout.

- `Math.sin`, `cos`, `exp` and `sqrt` are fields of a `Math` parameter, which
  carries only the laws the proofs use: exp > 0, sqrt ≥ 0, sin and cos in [-1, 1].
- Integer powers (`Math.pow(0.995, n)` and Adam's bias correction) are defined
  exactly, by recursion.
- `Math.random()` is an infinite stream of values in [0, 1) with a cursor (`Rng`).
  Every draw is threaded through the operations in the order the source makes it.
- The clock is an input: the `Date.now()` readings at a level's start and at its
  win, and `date` for a ranking entry.

Modules:

| file | module | models |
|---|---|---|
| realmath.dfy | RealMath | transcendental laws, clamping, exact `Pow` |
| random.dfy | Random | the `Math.random()` stream |
| levels.dfy | Levels | `generateLevels` |
| terrain.dfy | Terrain | terrain data and `getHeight` |
| generator.dfy | Generator | `generate` and the eight `_add*` archetypes |
| schedule.dfy | Schedule | the learning-rate schedules used by `jump` |
| motion.dfy | Motion | what player and optimizer share: course, world box, samples |
| play.dfy | Play | `jump`, the level-start reset, `togglePause` |
| controls.dfy | Controls | `handleInput`, `dpadJump` |
| simulator.dfy | Simulator | `_simulateOptimizer`, `verifyLevel` |
| forge.dfy | Forge | `generateTerrainForLevel` |
| scoring.dfy | Scoring | the rating and bookkeeping of `win`, unlocking, `startGame` |
| names.dfy | Names | `setPlayerName` and the default ranking name |
| ranking.dfy | Ranking | the sort-and-truncate rule of `saveRanking` |

Notes on the code:

- Spawn candidates are drawn as `2500 + (Math.random() - 0.5) * 400`, that is,
  within ±200 of the centre (game.js:1034-1036).
- The `: 50` default for `minStepsRequired` can never be taken. Every path through
  the search or the fallback sets a verification result (game.js:1028-1055), so
  the model has no such branch.
- The stall jitter of the autonomous run always moves y, even on a 1D level, and
  moves z only in 3D (game.js:1003-1005).
- The fallback level's verification result is recorded but never required to
  succeed (game.js:1048-1054).

## Model

| member | source | states |
|---|---|---|
| RealMath.ClampToWorld | game.js:1420-1422 | the clamped coordinate lies in [0, 5000], equals the input when the input already does, and is 0 or 5000 otherwise |
| RealMath.PowUnitBounds | game.js:1348 | a power of a base in (0, 1) lies in (0, 1] |
| RealMath.PowStrictlyDecreasing | game.js:1348 | powers of a base in (0, 1) strictly decrease as the exponent grows |
| Random.Next | game.js:182-183 | a draw of `Math.random()` is in [0, 1); the stream advances by exactly one value |
| Random.Offset | game.js:1034 | `(Math.random() - 0.5) * w` lies in [-w/2, w/2] and consumes one draw |
| Levels.LevelAt | game.js:26-43 | level i carries number i and a difficulty in [0, 1) |
| Levels.Catalog | game.js:25-43 | the catalog has 110 levels, entry k is level k+1, difficulty is in [0, 1], and the dimension is 1 up to level 40, 2 for 41–100 and 3 after |
| Levels.DifficultyRisesWithinDimension | game.js:39-43 | within one dimension band, a later level is never easier |
| Levels.DifficultyDropsEntering3D | game.js:41-42 | the first 3D level is easier than the last 2D level |
| Levels.ArchetypesMatchDimension | game.js:45-167 | ridge and Rosenbrock terrains occur only in 2D, noisy terrain only in 1D |
| Levels.SchedulerPairings | game.js:45-167 | Cosine is always paired with Adam and Warmup with Momentum |
| Terrain.Height | game.js:362-398 | the height is never negative, never below the unfloored sum, equals that sum whenever the sum is non-negative, and is exactly 0 when the sum is negative |
| Terrain.HeightIgnoresMaximum | game.js:362-398 | the height does not depend on the recorded maximum, so recording it keeps the terrain evaluable and every height unchanged |
| Generator.Scatter | game.js:223-232 | `count` scattered peaks, each within half the spread of the centre on x and y (and z when scattered), amplitude and sigma within their bands, every sigma positive when the sigma band is |
| Generator.Ring | game.js:236-244 | one ring peak per remaining index, at the spawn's z, amplitude in [60, 140], sigma in [150, 350], every sigma positive |
| Generator.Moats | game.js:261-267 | the six moat dips have amplitude −30, sigma 200 and the plateau's z |
| Generator.RidgeChain | game.js:297-307 | eight chain peaks at the spawn's z, amplitude in [30, 70], narrow (30) across the ridge axis and wide (200) along it |
| Generator.ValleyBumps | game.js:321-326 | eight valley bumps at the spawn's z, amplitude in [20, 50], sigma in [150, 250] |
| Generator.RivalAmplitude | game.js:349 | a deceptive rival's amplitude is at least 0.7 and below 0.95 times the primary's |
| Generator.Rivals | game.js:343-352 | `count` rivals, each with amplitude in [0.7, 0.95) of the primary's and a positive sigma |
| Generator.AddSimple | game.js:223-232 | the simple archetype keeps the primary and adds 5 + ⌊15d⌋ bumps of amplitude 20–80, nothing else |
| Generator.AddMultimodal | game.js:234-252 | the multimodal archetype adds a ring of 3 + ⌊5d⌋ peaks and 20 distractors, all of positive amplitude |
| Generator.AddPlateau | game.js:254-275 | the plateau archetype adds the flat bump (50, sigma 800), six moats (−30, sigma 200) and ten bumps of amplitude 3–8 |
| Generator.AddSaddle | game.js:277-289 | the saddle archetype adds one saddle point of strength 40 + 30d and ten distractors |
| Generator.AddRidge | game.js:291-315 | the ridge archetype sets a ridge axis and adds eight anisotropic chain peaks and fifteen walls of amplitude −50 to −20 |
| Generator.AddRosenbrock | game.js:317-327 | the Rosenbrock archetype adds a valley with a = 1, b = 100(0.5 + 0.5d) ending at the target, and eight bumps |
| Generator.AddNoisy | game.js:329-339 | the noisy archetype sets noise frequency 0.02 + 0.03d and amplitude 8 + 15d and adds fifteen distractors |
| Generator.AddDeceptive | game.js:341-360 | the deceptive archetype adds 3 + ⌊4d⌋ rivals of amplitude in [0.7, 0.95) of the primary's and fifteen distractors of amplitude 10–35 |
| Generator.AddFeatures | game.js:192-217 | whatever the archetype, the primary peak, target and kind are kept, every sigma is positive, and the archetype's layout holds |
| Generator.Generate | game.js:178-220 | a generated terrain is well formed, has the level's kind, has the primary (amplitude 140 + 100d, sigma 250 + 100d) at the target as peak 0, moves the target off the spawn only on the level's axes, and records as maximum the height at the target |
| Generator.PlaceTarget | game.js:181-186 | the target moves off the spawn in y only in 2D and 3D and in z only in 3D, and takes two draws |
| Schedule.Multiplier | game.js:1347-1355 | the schedule factor is in [0, 1]: exactly 1 for Fixed, positive for Step Decay, at least 0.1 for Warmup and 1 from step 10 on |
| Schedule.EffectiveStep | game.js:1345-1357 | for a non-negative power the effective step lies between 0 and power/100·20, and equals the latter under Fixed |
| Schedule.DecayStrictlyShrinks | game.js:1348 | under Step Decay every further step is strictly smaller |
| Schedule.DecayRatio | game.js:1348 | Step Decay starts at the full step and each factor is 0.995 times the previous one |
| Schedule.WarmupFraction | game.js:1349-1351 | during the first ten jumps Warmup moves (steps + 1)/10 of the unscheduled step |
| Schedule.WarmupRamp | game.js:1349-1351 | the Warmup factor never falls and strictly rises during the first ten steps |
| Schedule.CosineSettles | game.js:1352-1355 | from step 500 on the Cosine factor no longer changes |
| Schedule.ScheduleNeverBoosts | game.js:1345-1357 | no schedule gives a larger step than Fixed |
| Motion.ClampVec | game.js:1420-1422 | the clamped position is inside the world, each coordinate clamped on its own, and unchanged when already inside |
| Motion.BiasCorrection | game.js:1402 | Adam's bias correction 1 − βᵗ lies strictly between 0 and 1 from the first step on |
| Play.TogglePause | game.js:1322-1325 | Escape turns PLAYING into PAUSED and back, and leaves every other phase alone |
| Play.StartLevel | game.js:1115-1123 | a started level is PLAYING at the spawn with zero steps and a history holding the spawn with its height, and, for a spawn inside the world, has no velocity on the axes the level lacks |
| Play.Restrict | game.js:1340-1341 | the input keeps x, keeps y only from 2D on and z only in 3D, and zeroes the rest |
| Play.Gradient | game.js:1360-1364 | an unpressed axis reads 0; a pressed axis reads the height five units away in the pressed direction minus the height here |
| Play.BackwardPressReadsSlopeBehind | game.js:1362 | pressing towards negative x reads the negated rise of the five units behind, not the slope ahead |
| Play.AdamScale | game.js:1407-1416 | Adam's per-axis scale lies in (0, 4], never exceeds the reciprocal of the root plus 0.01, and is either the cap 4 or exactly that reciprocal |
| Play.MomentumUpdate | game.js:1372-1380 | the new velocity keeps 85% of the old (42.5% when the press opposes it) plus half the step in the pressed direction, and is the move; the moment averages are untouched |
| Play.RmsUpdate | game.js:1381-1390 | the squared-gradient average decays by 0.9 and takes 0.1·g²; the move times (√average + 0.01) is the pressed step; velocity and first moment are untouched |
| Play.AdamUpdate | game.js:1391-1417 | the first moment decays by 0.9 and the second by 0.999 towards the probed gradient; the velocity keeps 85% plus half the pressed step, with no reversal penalty; the move is the velocity times the capped scale of the bias-corrected second moment |
| Play.Step | game.js:1366-1417 | SGD moves the step along each pressed axis and changes no state; Momentum, RMSprop and Adam follow the rules above for the level's optimizer |
| Play.JumpUpdate | game.js:1345-1417 | a playing jump moves by the level's optimizer update, for the restricted input, the probed gradient and the scheduled step |
| Play.Jump | game.js:1337-1449 | outside PLAYING a jump changes nothing; otherwise it counts one step, lands at the clamped position inside the world, raises the boundary flag iff the unclamped position left the world, appends the landing sample to the history, wins iff the landing height reaches the win height or 98.5% of the maximum, and keeps the effective step within [0, power/100·20] |
| Play.JumpKeepsRest | game.js:1340-1341 | a jump never gives velocity to, or moves along, an axis the level does not have |
| Play.PlayKeepsRest | game.js:1115-1120 | over any sequence of jumps the axes the level lacks stay at rest |
| Play.StartedLevelStaysInDimension | game.js:1115-1120 | after a level starts, no sequence of jumps moves y on a 1D level or z on a 1D or 2D level |
| Play.PlayRecords | game.js:1433-1434 | every history entry records the terrain's height at its own position, after any sequence of jumps |
| Play.PlayFrozenUnlessPlaying | game.js:1338 | outside PLAYING no sequence of jumps changes anything |
| Play.ExtraAxesIgnored | game.js:1340-1341 | on a 1D level the y and z input are ignored; on a 2D level the z input is |
| Play.StepFollowsInput | game.js:1368-1371 | SGD and RMSprop move each axis in the pressed direction and not at all on an unpressed axis |
| Play.MoveFollowsInput | game.js:1368-1389 | for SGD and RMSprop a jump moves in the pressed direction on each axis and not at all on an axis that is not pressed or not in the level |
| Play.AdamMoveCapped | game.js:1414-1416 | Adam's move on each axis is at most four times the new velocity's magnitude |
| Play.AdamFirstMomentUnused | game.js:1394-1396 | Adam's first moment does not influence the move, the landing, the velocity or the win |
| Controls.PauseTwiceRestores | game.js:1322-1325 | pressing Escape twice returns to the phase the player was in |
| Controls.HandleKey | game.js:809-851 | Escape and only Escape pauses; outside PLAYING every other key does nothing; digit keys pick a slice only in 3D; every jump a key issues is one unit on one axis the level has |
| Controls.Dpad | game.js:875-895 | a d-pad button issues nothing or a single unit-axis jump, and always a jump in 3D |
| Controls.KeyboardMatchesDpadIn3D | game.js:835-848 | in 3D each d-pad button does what its key does, in every slice |
| Controls.KeyboardMatchesDpadIn2D | game.js:823-828 | in 2D the four arrow buttons do what the arrow keys do |
| Controls.OneDimensionalVerticalButtons | game.js:826-827 | on a 1D level the Up/Down keys do nothing, but the Up/Down buttons issue a jump that moves nowhere and still counts a step |
| Controls.SliceCoversEveryAxis | game.js:887-891 | in every 3D slice each signed unit axis is reachable by some button |
| Controls.DpadButtonsDistinct | game.js:887-891 | in a 3D slice no two buttons issue the same jump |
| Simulator.Rate | game.js:938-941 | the optimizer's learning rate lies in [0, 10] |
| Simulator.Probe | game.js:927-930 | the probed gradient is 0 on the axes the level does not have |
| Simulator.Length | game.js:933-934 | the length the gradient is divided by is at least 0.0001 |
| Simulator.Direction | game.js:933-935 | on every axis the direction has the gradient's sign (0 where it is 0), and multiplied by the floored length it gives the gradient back |
| Simulator.Step | game.js:943-988 | an update keeps move, velocity and first moment at 0 on an axis whose direction and state are 0 |
| Simulator.Land | game.js:990-994 | the landing position is inside the world |
| Simulator.Jitter | game.js:1001-1005 | the jitter moves x and y by one draw each, and z by a third draw only in 3D |
| Simulator.JitterMovesYInEveryDimension | game.js:1003-1005 | even on a 1D level the jitter moves y, unless its draw is exactly one half |
| Simulator.Advance | game.js:922-1008 | one iteration records the measured clamped landing; the stall counter grows when the height changed by less than 0.001 and otherwise resets to 0; the jitter happens exactly when that growth reaches 50, and then moves the landing by `Jitter`, zeroes the velocity and resets the counter |
| Simulator.Loop | game.js:922-1011 | the loop only extends the path, never beyond maxSim + 1 entries, keeps every entry measured and in the world, stops at the summit only when the current height is within 1.5% of the maximum, and stops for a cooled rate only when the rate fell below 0.01 |
| Simulator.Simulate | game.js:909-1013 | a run starts with the measured start point, has 1 to maxSim + 1 entries, all measured and all after the first inside the world, and ends with the stall counter below 50 |
| Simulator.VerdictOf | game.js:1019-1022 | reached iff the last sample is within 1.5% of the maximum, with steps = path length − 1 |
| Simulator.Verify | game.js:1016-1023 | a verification takes at most 1500 steps |
| Simulator.VerifyAtSummit | game.js:922-924 | a start already at the summit is reached in zero steps |
| Simulator.ReachedNeedsAStep | game.js:918-924 | a start below the summit needs at least one step to be reached |
| Simulator.SummitStopIsReached | game.js:924 | a run that stopped at the summit without a pending jitter is reported reached |
| Simulator.SteadyScheduleNeverCools | game.js:1010 | under Fixed or Warmup the run never stops for a cooled rate |
| Simulator.LoopKeepsZ | game.js:930 | on 1D and 2D levels the loop keeps every sample's z where it started |
| Simulator.SimulationStaysInPlane | game.js:929-930 | a 1D or 2D run never leaves the start's z plane |
| Forge.Candidate | game.js:1034-1036 | a spawn candidate lies within 200 of 2500 on the level's axes and exactly at 2500 on the others |
| Forge.SearchSpawn | game.js:1033-1045 | at most 15 verifications per terrain, and a found spawn is near the centre, acceptable and verified as reached |
| Forge.SearchTerrain | game.js:1029-1047 | at most 15 verifications for each of the remaining terrains, and a found placement has the level's kind, its maximum at the target and a win height of 97% of it |
| Forge.ForgeLevel | game.js:1026-1059 | a forged level is well formed with win height 0.97·maximum, used at most 76 verifications, and takes `minStepsRequired` from its last verification; without the fallback the spawn is near the centre, higher than 25, below 70% of the win height, more than 500 from the target and verified as reached; with it the terrain is simple and the spawn is the centre |
| Forge.ForgedLevelNeedsAStep | game.js:1039-1042 | a level forged without the fallback needs at least one optimizer step |
| Scoring.EffectiveSteps | game.js:1473 | the effective step count is the actual count plus the whole number of two-second intervals |
| Scoring.Stars | game.js:1473-1483 | at most 3 stars; 3 iff within the first threshold; at least 2 iff within the second; 0 iff beyond the last |
| Scoring.StarsNeverRiseWithSteps | game.js:1473-1483 | more effective steps never earn more stars |
| Scoring.HardIsNeverKinder | game.js:1473-1483 | hard difficulty never awards more stars than another mode |
| Scoring.ParEarnsThreeStars | game.js:1473-1483 | matching the optimizer's step count earns three stars |
| Scoring.RecordWin | game.js:1485-1507 | totals grow by the stars and steps; the highest level passed becomes the larger of old and new; the level's stored rating becomes the new one when none or 0 was stored or the new is higher, and no other level changes |
| Scoring.RecordWinSettles | game.js:1504-1507 | winning the same level again with the same rating changes neither the levels passed nor the ratings |
| Scoring.RecordWinKeepsRatings | game.js:1507 | recording a win keeps every stored rating within 0 to 3 |
| Scoring.WinUnlocksNext | game.js:1223-1224 | a win unlocks the next level and locks nothing |
| Scoring.StartGame | game.js:1184-1187 | the start button picks a level in 1..110 that is unlocked, and the level after the highest passed unless that was the last |
| Scoring.ClockAsWritten | game.js:700-719 | as written, a multiplayer start sets `startTime` to its clock reading, and after only single-play starts it is still the constructor's 0 |
| Scoring.Clock | game.js:1070-1123 | as intended, `startTime` is the clock reading of the latest level start |
| Scoring.LevelTime | game.js:1467 | the level time is the elapsed milliseconds over 1000, never negative when the win follows the start |
| Scoring.Win | game.js:1465-1507 | a win rates at most 3 stars, 3 iff within the first threshold, at least 2 iff within the second, 0 iff beyond the third, adds to the totals, marks the level passed, unlocks the next, and never lowers the level's rating |
| Scoring.SoloWinEarnsNoStars | game.js:1465-1483 | as written, any single-play win after 20000 seconds into 1970 on a level the optimizer solved within 1500 steps earns 0 stars |
| Scoring.ParWinAsWrittenEarnsNothing | game.js:1467-1483 | a single-play win at par five seconds after the start earns 0 stars as written and 3 as intended |
| Scoring.FastWinStoresThreeStars | game.js:1473-1507 | with the clock read at the start, a win in at most the optimizer's step count within two seconds of the start stores three stars |
| Names.TrimStart | game.js:781 | leading white space is removed, and only white space |
| Names.TrimEnd | game.js:781 | trailing white space is removed, and only white space |
| Names.Trim | game.js:781 | the trimmed name is a slice of the input with white space on neither end, and only white space was cut from either side |
| Names.BlankTrimsToEmpty | game.js:781 | a name of white space only trims to the empty string |
| Names.TrimIdempotent | game.js:781 | trimming twice is trimming once |
| Names.PlayerName | game.js:780-783 | the stored name is a prefix of the trimmed input of length min(trimmed length, 16), equals it when it fits, and starts with no white space |
| Names.ShortNameIsStable | game.js:780-783 | setting a name that fits in 16 characters again keeps it unchanged |
| Names.CutCanLeaveTrailingSpace | game.js:781 | cutting at 16 after trimming can leave a trailing space, so setting the result again changes it |
| Names.DisplayName | game.js:755 | a ranking entry shows the player's name, or `ANONYMOUS` when it is empty |
| Ranking.BeforeIsStrictWeakOrder | game.js:767 | the comparator (more stars first, then fewer steps) is irreflexive, transitive, and its ties are transitive |
| Ranking.Insert | game.js:767 | inserting keeps every entry, adds the new one once, and keeps a sorted list sorted |
| Ranking.Slot | game.js:767 | the slot is at most the length; the new entry ranks ahead of no entry before it and ahead of the entry at it |
| Ranking.InsertAtSlot | game.js:767 | the new entry goes behind every entry it does not rank ahead of |
| Ranking.SlotSplitsSorted | game.js:767 | in a sorted list the new entry ranks ahead of everything after its slot |
| Ranking.Sort | game.js:767 | the sort is a permutation and its result is sorted |
| Ranking.SortKeepsSorted | game.js:767 | sorting a sorted list changes nothing, so ties keep their order |
| Ranking.NewEntry | game.js:754-761 | an entry carries the display name, the total stars, total steps and highest level passed |
| Ranking.SaveRanking | game.js:752-771 | the saved ranking is sorted, holds only stored entries and the new one, and has min(n + 1, 50) entries |
| Ranking.SaveRankingKeepsTheBest | game.js:766-768 | no entry that ranks ahead of a kept one is dropped |
| Ranking.SaveRankingInsertsBehindTies | game.js:766-768 | on a sorted ranking, saving is inserting the new run behind its ties and keeping the first 50 |

## Left out

- Rendering, the HUD, the minimap, slice views, replay animation and the ending
  sequence: presentation only.
- PeerJS multiplayer and every message sent from `jump` and `win`: network and
  concurrency.
- `localStorage` saving and loading: I/O. The ranking is modelled as the list it
  reads, and the progress as the values it stores.
- `async`, `requestAnimationFrame` and timers: forging is modelled as one
  synchronous computation.
- The values of sin, cos, exp and sqrt, floating-point rounding, and any claim
  that an optimizer reaches a peak or outruns another. Comparisons such as
  `effectiveSteps <= ideal * 1.05` are made on exact reals, not doubles.
- Tutorial, narrative and hint strings: text only. The `pulse` animation value
  and the "BOUNDARY REACHED" hint are kept only as the `boundary` flag of a jump.
- `Math.random()` is an infinite stream, so the model has no "out of randomness"
  case; the source has none either.
- `Date.now()`: the clock readings are inputs to scoring (`Start.now` and the
  win's `now`) and `date` is an input to a ranking entry.
- The player's name is a sequence of Unicode characters. JavaScript's
  `substring(0, 16)` counts UTF-16 code units, so a name holding characters
  outside the Basic Multilingual Plane is cut differently.
- Generator.Scatter: peak positions are stated as bounds around the centre, not
  as the exact sums of the draws.
- Generator.Ring: the peak positions on the circle (cos and sin of the bearing)
  are not stated, because cos and sin are only bounded.
- Generator.Generate: the target's distance from the spawn (600 + 1400d) is not
  stated, for the same reason. Only which axes the target moves on is stated.
- Schedule.Multiplier: the Cosine factor is only bounded to [0, 1]. Its decrease
  over the first 500 steps needs the monotonicity of cos, which the laws do not
  give.
- Simulator.Step: the Momentum, RMSprop and Adam arithmetic is modelled, but its
  contract states only that axes at rest stay at rest. Convergence is numerics.
- Scoring.FastWinStoresThreeStars is stated for the corrected clock
  (`Scoring.Clock`); with the clock as written no single-play win is that fast
  (see Findings).
- Simulator.Verify: the result is stated through `VerdictOf` of the simulated
  run, plus the 1500-step bound.
- Forge.ForgeLevel requires a difficulty in [0, 1]. Every catalog level meets
  this (Levels.Catalog), and the source never forges anything else.
- Scoring.StartGame requires a non-negative highest level passed. The source
  starts it at 0 and only raises it.
- Scoring.FastWinStoresThreeStars requires the stored rating to be at most 3,
  which Scoring.RecordWinKeepsRatings shows every win preserves.
- The level select's display of stars and locks is modelled only as the
  `Passed` and `Unlocked` predicates.

## Findings

| source | as written | input that shows it | evidently intended | confidence | as-written member | corrected member |
|---|---|---|---|---|---|---|
| game.js:1070-1123 | single-play `startLevel` never assigns `startTime`; only the constructor (0, game.js:424) and the multiplayer starts (game.js:700, 719) do, so `win` measures the level time from 1970 (game.js:1467) | a single-play win of a level whose optimizer needed 10 steps, in 10 steps, started at `Date.now()` = 1700000000000 and won at 1700000005000: the level time is 1.7·10⁹ s and the rating 0 stars | `startLevel` sets `startTime = Date.now()`, so the same win takes 5 s and earns 3 stars | high; not executed | Scoring.SoloWinEarnsNoStars | Scoring.FastWinStoresThreeStars |

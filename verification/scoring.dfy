/**
 * What a win is worth and what it unlocks: the star rating against the optimizer's
 * step count, the per-level best, the running totals, and which levels the
 * level-select screen and the start button offer.
 */
module Scoring {
  import opened Levels
  import Simulator

  /** The difficulty chosen on the start screen; only `Hard` changes the star thresholds. */
  datatype Mode = Dummy | Normal | Hard

  /** `actual + Math.floor(levelTime / 2)`: every two seconds cost one step. */
  function EffectiveSteps(actual: nat, levelTime: real): (e: int)
    ensures levelTime >= 0.0 ==> e >= actual
    ensures e as real <= actual as real + levelTime / 2.0 < e as real + 1.0
  {
    actual + (levelTime / 2.0).Floor
  }

  /** The three thresholds, as multiples of the ideal step count, for 3, 2 and 1 stars. */
  function Thresholds(mode: Mode): (t: (real, real, real))
    ensures 0.0 < t.0 < t.1 < t.2
  {
    if mode == Hard then (1.05, 1.15, 1.5) else (1.3, 2.5, 5.0)
  }

  /** The star rating of a win `effective` steps long against the optimizer's `ideal`. */
  function Stars(mode: Mode, ideal: nat, effective: int): (s: nat)
    ensures s <= 3
    ensures s == 3 <==> effective as real <= ideal as real * Thresholds(mode).0
    ensures s >= 2 <==> effective as real <= ideal as real * Thresholds(mode).1
    ensures s == 0 <==> effective as real > ideal as real * Thresholds(mode).2
  {
    var (t3, t2, t1) := Thresholds(mode);
    var e := effective as real;
    var i := ideal as real;
    assert i * t3 <= i * t2 <= i * t1;
    if e <= i * t3 then 3
    else if e <= i * t2 then 2
    else if e <= i * t1 then 1
    else 0
  }

  /** Taking longer never earns more stars. */
  lemma StarsNeverRiseWithSteps(mode: Mode, ideal: nat, e1: int, e2: int)
    requires e1 <= e2
    ensures Stars(mode, ideal, e2) <= Stars(mode, ideal, e1)
  {
  }

  /** Hard mode never awards more stars than normal or dummy for the same run. */
  lemma HardIsNeverKinder(mode: Mode, ideal: nat, e: int)
    ensures Stars(Hard, ideal, e) <= Stars(mode, ideal, e)
  {
    var i := ideal as real;
    assert i * 1.05 <= i * 1.3 && i * 1.15 <= i * 2.5 && i * 1.5 <= i * 5.0;
  }

  /** Matching the optimizer's step count earns three stars in every mode. */
  lemma ParEarnsThreeStars(mode: Mode, ideal: nat, e: int)
    requires e <= ideal
    ensures Stars(mode, ideal, e) == 3
  {
  }

  /** Saved progress and the running totals of the session. */
  datatype Progress = Progress(
    maxLevelPassed: int,
    levelStars: map<int, nat>,
    totalStars: nat,
    totalSteps: nat)

  /** The best rating recorded for a level, 0 when there is none. */
  function Best(p: Progress, level: int): nat
  {
    if level in p.levelStars then p.levelStars[level] else 0
  }

  /**
   * The bookkeeping of `win`: add to the totals, raise the highest level passed, and
   * store the rating when there was none (or 0) or it beats the stored one.
   */
  function RecordWin(p: Progress, level: int, stars: nat, actual: nat): (q: Progress)
    ensures q.totalStars == p.totalStars + stars && q.totalSteps == p.totalSteps + actual
    ensures q.maxLevelPassed >= p.maxLevelPassed && q.maxLevelPassed >= level
    ensures q.maxLevelPassed == p.maxLevelPassed || q.maxLevelPassed == level
    ensures level in q.levelStars
    ensures Best(q, level) >= Best(p, level) && Best(q, level) >= stars
    ensures Best(q, level) == Best(p, level) || Best(q, level) == stars
    ensures forall l :: l != level ==>
      (l in q.levelStars <==> l in p.levelStars) && Best(q, l) == Best(p, l)
  {
    var prior := Best(p, level);
    var best := if prior == 0 || stars > prior then stars else prior;
    Progress(
      if level > p.maxLevelPassed then level else p.maxLevelPassed,
      p.levelStars[level := best],
      p.totalStars + stars,
      p.totalSteps + actual)
  }

  /** Winning a level again with the same rating changes nothing but the totals. */
  lemma RecordWinSettles(p: Progress, level: int, stars: nat, a1: nat, a2: nat)
    ensures var q := RecordWin(p, level, stars, a1);
      var q2 := RecordWin(q, level, stars, a2);
      q2.maxLevelPassed == q.maxLevelPassed && q2.levelStars == q.levelStars
  {
    var q := RecordWin(p, level, stars, a1);
    assert Best(RecordWin(q, level, stars, a2), level) == Best(q, level);
  }

  /** A level is shown as passed up to the highest level passed. */
  predicate Passed(p: Progress, level: int)
  {
    level <= p.maxLevelPassed
  }

  /** A level can be chosen when it is passed or is the next one. */
  predicate Unlocked(p: Progress, level: int)
  {
    level <= p.maxLevelPassed + 1
  }

  /** A win unlocks the following level and locks nothing that was open. */
  lemma WinUnlocksNext(p: Progress, level: int, stars: nat, actual: nat, other: int)
    ensures Unlocked(RecordWin(p, level, stars, actual), level + 1)
    ensures Unlocked(p, other) ==> Unlocked(RecordWin(p, level, stars, actual), other)
    ensures Passed(p, other) ==> Passed(RecordWin(p, level, stars, actual), other)
  {
  }

  /** `startGame`: the level after the highest passed, capped at the last level. */
  function StartGame(p: Progress): (level: int)
    requires p.maxLevelPassed >= 0
    ensures 1 <= level <= TOTAL_LEVELS
    ensures Unlocked(p, level)
    ensures level < TOTAL_LEVELS ==> !Passed(p, level)
    ensures p.maxLevelPassed < TOTAL_LEVELS ==> level == p.maxLevelPassed + 1
  {
    if p.maxLevelPassed + 1 <= TOTAL_LEVELS then p.maxLevelPassed + 1 else TOTAL_LEVELS
  }

  /** How a level was entered: from the menus in single play, or by a multiplayer countdown. */
  datatype Launch = Solo | Match

  /** A level start: how it was entered and the `Date.now()` reading, in milliseconds. */
  datatype Start = Start(how: Launch, now: int)

  /** The `startTime` the game object is constructed with. */
  const CONSTRUCTED_START: int := 0

  /**
   * `startTime` after the given level starts, oldest first, as the code is written:
   * `startLevel` leaves it alone and only the multiplayer paths read the clock.
   */
  function ClockAsWritten(starts: seq<Start>): (t: int)
    ensures |starts| > 0 && starts[|starts| - 1].how == Match ==> t == starts[|starts| - 1].now
    ensures (forall i :: 0 <= i < |starts| ==> starts[i].how == Solo) ==> t == CONSTRUCTED_START
  {
    if |starts| == 0 then CONSTRUCTED_START
    else
      var last := starts[|starts| - 1];
      var init := starts[..|starts| - 1];
      var prior := ClockAsWritten(init);
      assert forall i :: 0 <= i < |init| ==> init[i] == starts[i];
      if last.how == Match then last.now else prior
  }

  /** `startTime` as intended: the clock reading of the latest level start. */
  function Clock(starts: seq<Start>): (t: int)
    ensures |starts| > 0 ==> t == starts[|starts| - 1].now
  {
    if |starts| == 0 then CONSTRUCTED_START else starts[|starts| - 1].now
  }

  /** `(Date.now() - this.startTime) / 1000`: seconds since the recorded start. */
  function LevelTime(startTime: int, now: int): (t: real)
    ensures t * 1000.0 == (now - startTime) as real
    ensures startTime <= now ==> t >= 0.0
  {
    (now - startTime) as real / 1000.0
  }

  /** The progress bookkeeping of a win at clock reading `now`: rate the run and record it. */
  function Win(p: Progress, mode: Mode, ideal: nat, level: int, actual: nat, startTime: int, now: int): (r: (Progress, nat))
    ensures var e := EffectiveSteps(actual, LevelTime(startTime, now)) as real;
      && r.1 <= 3
      && (r.1 == 3 <==> e <= ideal as real * Thresholds(mode).0)
      && (r.1 >= 2 <==> e <= ideal as real * Thresholds(mode).1)
      && (r.1 == 0 <==> e > ideal as real * Thresholds(mode).2)
    ensures r.0.totalStars == p.totalStars + r.1 && r.0.totalSteps == p.totalSteps + actual
    ensures Passed(r.0, level) && Unlocked(r.0, level + 1)
    ensures Best(r.0, level) >= r.1 && Best(r.0, level) >= Best(p, level)
  {
    var stars := Stars(mode, ideal, EffectiveSteps(actual, LevelTime(startTime, now)));
    (RecordWin(p, level, stars, actual), stars)
  }

  /** Every stored rating is a star count, 0 to 3. */
  ghost predicate Rated(p: Progress)
  {
    forall l :: l in p.levelStars ==> p.levelStars[l] <= 3
  }

  /** Recording a win keeps every stored rating within 0 to 3. */
  lemma RecordWinKeepsRatings(p: Progress, level: int, stars: nat, actual: nat)
    requires Rated(p) && stars <= 3
    ensures Rated(RecordWin(p, level, stars, actual))
  {
    var q := RecordWin(p, level, stars, actual);
    forall l | l in q.levelStars
      ensures q.levelStars[l] <= 3
    {
      assert q.levelStars[l] == Best(q, l);
      if l != level {
        assert l in p.levelStars && Best(p, l) == p.levelStars[l];
      }
    }
  }

  /**
   * As written, single play never reads the clock, so a level's time is measured
   * from the epoch: any win later than 20000 seconds into 1970, on a level whose
   * optimizer needed at most the 1500 verification steps, earns no star.
   */
  lemma SoloWinEarnsNoStars(p: Progress, mode: Mode, ideal: nat, level: int, actual: nat, starts: seq<Start>, now: int)
    requires forall i :: 0 <= i < |starts| ==> starts[i].how == Solo
    requires ideal <= Simulator.VERIFY_STEPS && now >= 20000000
    ensures Win(p, mode, ideal, level, actual, ClockAsWritten(starts), now).1 == 0
  {
    var t := LevelTime(ClockAsWritten(starts), now);
    assert t >= 20000.0;
    var e := EffectiveSteps(actual, t);
    assert e >= actual + 10000;
    assert ideal as real * Thresholds(mode).2 <= 7500.0;
  }

  /** A single-play win at par, five seconds after a start in November 2023, as written and as intended. */
  lemma ParWinAsWrittenEarnsNothing()
    ensures var p := Progress(0, map[], 0, 0);
      var starts := [Start(Solo, 1700000000000)];
      && Win(p, Normal, 10, 1, 10, ClockAsWritten(starts), 1700000005000).1 == 0
      && Win(p, Normal, 10, 1, 10, Clock(starts), 1700000005000).1 == 3
  {
    var p := Progress(0, map[], 0, 0);
    var starts := [Start(Solo, 1700000000000)];
    SoloWinEarnsNoStars(p, Normal, 10, 1, 10, starts, 1700000005000);
    assert EffectiveSteps(10, LevelTime(Clock(starts), 1700000005000)) == 12;
  }

  /**
   * With the clock read at every level start, a win in at most the optimizer's step
   * count and within two seconds of the start always stores three stars.
   */
  lemma FastWinStoresThreeStars(p: Progress, mode: Mode, ideal: nat, level: int, actual: nat, starts: seq<Start>, now: int)
    requires |starts| > 0 && starts[|starts| - 1].now <= now < starts[|starts| - 1].now + 2000
    requires actual <= ideal
    requires Best(p, level) <= 3
    ensures Best(Win(p, mode, ideal, level, actual, Clock(starts), now).0, level) == 3
  {
    var t := LevelTime(Clock(starts), now);
    assert 0.0 <= t < 2.0;
    var e := EffectiveSteps(actual, t);
    assert e == actual;
    ParEarnsThreeStars(mode, ideal, e);
    assert Win(p, mode, ideal, level, actual, Clock(starts), now).1 == 3;
  }
}

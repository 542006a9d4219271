/**
 * The enemy formation's attack-pattern scheduler, as values.
 *
 * The scheduler's counters form a `Sched` record; every handler of the
 * formation's `shoot` is a function from the record (and what it reads of
 * the formation) to the new record and the ships that fire, in firing
 * order, with repetitions. The shooting cooldown is represented by the time
 * of its last reset (None before the formation's first update creates it);
 * whether it has finished is an input. The wall clock is the input `now`
 * and Math.random() the input `rand` in [0, 1).
 */
module Patterns {
  import opened Common
  import opened Fleet
  import opened Pairs
  import opened Runs

  datatype Pattern = NoPattern | Wave | SideWave | Focus | RandomBurst

  const PatternDelayMs: int := 7000
  const FocusMax: int := 10
  const FocusStep: int := 10
  const FocusDelayMs: int := 500
  const BurstMax: int := 2
  const BurstWait: int := 2
  const WaveStep: int := 20

  datatype Sched = Sched(
    pattern: Pattern,
    patternStartTime: int,
    cooldownResetAt: Option<int>,
    waveIndex: int,
    waveFrameCounter: int,
    sideWavePairIndex: int,
    focusFrameCounter: int,
    focusGroupIndex: int,
    focusStepInGroup: int,
    focusGroupUsed: int,
    focusDelayUntil: int,
    randomBurstPhase: int,
    randomBurstCycle: int,
    randomBurstWait: int)

  /** The ranges the counters keep; the cooldown exists once a pattern has started. */
  predicate SchedOk(s: Sched) {
    (s.pattern != NoPattern ==> s.cooldownResetAt.Some?) &&
    0 <= s.waveIndex && 0 <= s.waveFrameCounter < WaveStep &&
    0 <= s.sideWavePairIndex &&
    0 <= s.focusFrameCounter < FocusStep &&
    -1 <= s.focusGroupIndex <= 2 &&
    0 <= s.focusStepInGroup &&
    0 <= s.focusGroupUsed <= FocusMax &&
    0 <= s.randomBurstPhase <= 2 &&
    0 <= s.randomBurstCycle < BurstMax &&
    0 <= s.randomBurstWait <= BurstWait
  }

  /** What one call of `shoot` reads of the formation and of its environment. */
  datatype Env = Env(shooters: seq<ShipId>, cols: Grid, ships: Ships, now: int, cooldownFinished: bool, rand: real)

  predicate EnvOk(e: Env) {
    0.0 <= e.rand < 1.0
  }

  /** `cooldown.reset()` where the source first checks that the cooldown exists. */
  function ResetIfCreated(c: Option<int>, now: int): Option<int> {
    if c.Some? then Some(now) else None
  }

  // ---------------------------------------------------------------------------
  // Starting a pattern.

  function SelectPatternByLevel(level: int): (p: Pattern)
    ensures p == NoPattern <==> !(1 <= level <= 4)
  {
    if level == 1 then Wave
    else if level == 2 then SideWave
    else if level == 3 then Focus
    else if level == 4 then RandomBurst
    else NoPattern
  }

  /** Zeroes the counters of the chosen pattern, and only those. */
  function InitPatternState(s: Sched, p: Pattern): (r: Sched)
    ensures r.pattern == s.pattern && r.patternStartTime == s.patternStartTime && r.cooldownResetAt == s.cooldownResetAt
  {
    match p
    case Wave => s.(waveIndex := 0, waveFrameCounter := 0)
    case SideWave => s.(sideWavePairIndex := 0, waveFrameCounter := 0)
    case Focus => s.(focusFrameCounter := 0, focusGroupIndex := -1, focusStepInGroup := 0, focusGroupUsed := 0, focusDelayUntil := 0)
    case RandomBurst => s.(randomBurstPhase := 0, randomBurstCycle := 0, randomBurstWait := 0)
    case NoPattern => s
  }

  /** The end of a movement tick: from NONE, once 7000 ms have passed, the level's pattern starts afresh. */
  function StartPattern(s: Sched, level: int, now: int): (r: Sched)
  {
    if s.pattern == NoPattern && now - s.patternStartTime >= PatternDelayMs then
      var p := SelectPatternByLevel(level);
      InitPatternState(s.(pattern := p), p)
    else s
  }

  lemma StartPatternSpec(s: Sched, level: int, now: int)
    requires SchedOk(s) && s.cooldownResetAt.Some?
    ensures var r := StartPattern(s, level, now);
            SchedOk(r) &&
            (r.pattern != s.pattern ==> s.pattern == NoPattern && now - s.patternStartTime >= PatternDelayMs) &&
            (!(s.pattern == NoPattern && now - s.patternStartTime >= PatternDelayMs) ==> r == s) &&
            (s.pattern == NoPattern && now - s.patternStartTime >= PatternDelayMs ==> r.pattern == SelectPatternByLevel(level)) &&
            (r.pattern == Wave && r != s ==> r.waveIndex == 0 && r.waveFrameCounter == 0) &&
            (r.pattern == SideWave && r != s ==> r.sideWavePairIndex == 0 && r.waveFrameCounter == 0) &&
            (r.pattern == Focus && r != s ==> r.focusGroupIndex == -1 && r.focusGroupUsed == 0 && r.focusStepInGroup == 0 &&
                                              r.focusFrameCounter == 0 && r.focusDelayUntil == 0) &&
            (r.pattern == RandomBurst && r != s ==> r.randomBurstPhase == 0 && r.randomBurstCycle == 0 && r.randomBurstWait == 0)
  {
  }

  // ---------------------------------------------------------------------------
  // WAVE: one shooter every 20 calls, left to right.

  function FireWavePattern(s: Sched, shooters: seq<ShipId>, now: int): (Sched, seq<ShipId>)
  {
    if shooters == [] then (s, [])
    else if s.waveIndex >= |shooters| then
      (s.(pattern := NoPattern, waveIndex := 0, waveFrameCounter := 0,
          cooldownResetAt := ResetIfCreated(s.cooldownResetAt, now), patternStartTime := now), [])
    else if s.waveIndex < 0 then (s, [])  // cannot happen: the index only counts up from 0
    else (s.(waveIndex := s.waveIndex + 1), [shooters[s.waveIndex]])
  }

  function HandleWaveShoot(s: Sched, shooters: seq<ShipId>, now: int): (Sched, seq<ShipId>)
  {
    var t := s.(waveFrameCounter := s.waveFrameCounter + 1);
    if t.waveFrameCounter >= WaveStep then FireWavePattern(t.(waveFrameCounter := 0), shooters, now)
    else (t, [])
  }

  // ---------------------------------------------------------------------------
  // SIDE_WAVE: the two ends of the roster, closing in, every 20 calls.

  function FireSideWavePattern(s: Sched, shooters: seq<ShipId>, now: int): (Sched, seq<ShipId>)
    requires s.cooldownResetAt.Some?
  {
    var n := |shooters|;
    if s.sideWavePairIndex >= (n + 1) / 2 then
      (s.(pattern := NoPattern, sideWavePairIndex := 0, waveFrameCounter := 0,
          cooldownResetAt := Some(now), patternStartTime := now), [])
    else if s.sideWavePairIndex < 0 then (s, [])  // cannot happen: the index only counts up from 0
    else
      var left := s.sideWavePairIndex;
      var right := n - 1 - s.sideWavePairIndex;
      (s.(sideWavePairIndex := left + 1), SidePair(shooters, left))
  }


  function HandleSideWaveShoot(s: Sched, shooters: seq<ShipId>, now: int): (Sched, seq<ShipId>)
    requires s.cooldownResetAt.Some?
  {
    var t := s.(waveFrameCounter := s.waveFrameCounter + 1);
    if t.waveFrameCounter >= WaveStep then FireSideWavePattern(t.(waveFrameCounter := 0), shooters, now)
    else (t, [])
  }

  // ---------------------------------------------------------------------------
  // FOCUS: the roster in three groups; a randomly chosen group fires member
  // by member, every 10 calls, then a 500 ms pause; ten groups at most.

  /** getFocusGroup(g): with t = n / 3, the slices [0, t), [t, 2t) and [2t, n) of the roster. */
  function FocusGroup(shooters: seq<ShipId>, g: int): (r: seq<ShipId>)
    requires 0 <= g <= 2
  {
    var n := |shooters|;
    if n == 0 then []
    else
      var third := n / 3;
      var start := g * third;
      var end := if g == 2 then n else start + third;
      if start >= n then []
      else shooters[start..if end > n then n else end]
  }

  /** The groups that are not empty, in order: the list the source draws from. */
  function AvailableGroups(shooters: seq<ShipId>): (r: seq<int>)
    ensures forall i :: 0 <= i < |r| ==> 0 <= r[i] <= 2 && FocusGroup(shooters, r[i]) != []
    ensures forall g :: 0 <= g <= 2 && FocusGroup(shooters, g) != [] ==> g in r
  {
    (if FocusGroup(shooters, 0) != [] then [0] else []) +
    (if FocusGroup(shooters, 1) != [] then [1] else []) +
    (if FocusGroup(shooters, 2) != [] then [2] else [])
  }

  /** The pattern ends: back to NONE with every focus counter cleared and the pause restarted. */
  function ResetFocusPattern(s: Sched, now: int): Sched {
    s.(pattern := NoPattern, focusGroupIndex := -1, focusStepInGroup := 0, focusFrameCounter := 0,
       focusDelayUntil := 0, focusGroupUsed := 0,
       cooldownResetAt := ResetIfCreated(s.cooldownResetAt, now), patternStartTime := now)
  }

  /** A group is done: deselect it, count it, and pause 500 ms. */
  function EndFocusGroup(s: Sched, now: int): Sched {
    s.(focusGroupIndex := -1, focusGroupUsed := s.focusGroupUsed + 1, focusDelayUntil := now + FocusDelayMs)
  }

  function FireFocusPattern(s: Sched, shooters: seq<ShipId>, ships: Ships, now: int, rand: real): (Sched, seq<ShipId>)
    requires 0.0 <= rand < 1.0
    requires -1 <= s.focusGroupIndex <= 2
  {
    if s.focusGroupUsed >= FocusMax then (ResetFocusPattern(s, now), [])
    else if s.focusGroupIndex == -1 && s.focusDelayUntil > 0 && now < s.focusDelayUntil then (s, [])
    else if s.focusGroupIndex == -1 && AvailableGroups(shooters) == [] then (ResetFocusPattern(s, now), [])
    else
      var t := if s.focusGroupIndex == -1 then
                 var groups := AvailableGroups(shooters);
                 s.(focusGroupIndex := groups[RandomIndex(rand, |groups|)], focusStepInGroup := 0, focusFrameCounter := 0)
               else s;
      FocusTick(t, shooters, ships, now)
  }

  /** The part of a focus step after a group is selected: count a frame, and every 10th frame fire the next member. */
  function FocusTick(t: Sched, shooters: seq<ShipId>, ships: Ships, now: int): (Sched, seq<ShipId>)
    requires 0 <= t.focusGroupIndex <= 2
  {
    var u := t.(focusFrameCounter := t.focusFrameCounter + 1);
    if u.focusFrameCounter < FocusStep then (u, [])
    else
      var v := u.(focusFrameCounter := 0);
      var group := FocusGroup(shooters, v.focusGroupIndex);
      if group == [] || v.focusStepInGroup >= |group| then (EndFocusGroup(v, now), [])
      else if v.focusStepInGroup < 0 then (v, [])  // cannot happen: the step only counts up from 0
      else
        var shooter := group[v.focusStepInGroup];
        (v.(focusStepInGroup := v.focusStepInGroup + 1), if Live(shooter, ships) then [shooter] else [])
  }

  // ---------------------------------------------------------------------------
  // RANDOM_BURST: the bottom ships of tall columns twice, then the lone
  // ships three times each; two cycles.

  /** The bottom entries of the non-empty columns that have exactly one ship (`single`) or more than one. */
  function ColumnEnds(cols: Grid, single: bool): (r: seq<ShipId>)
    ensures forall x :: x in r ==> exists c :: 0 <= c < |cols| && cols[c] != [] && x == cols[c][|cols[c]| - 1] &&
                                               (|cols[c]| == 1 <==> single)
  {
    if cols == [] then []
    else
      var front := cols[..|cols| - 1];
      assert forall c :: 0 <= c < |front| ==> front[c] == cols[c];
      var col := cols[|cols| - 1];
      ColumnEnds(front, single) + if col != [] && (|col| == 1 <==> single) then [col[|col| - 1]] else []
  }

  /** Every ship of the list three times in a row: fireTriple. */
  function Triple(ids: seq<ShipId>): (r: seq<ShipId>)
    ensures |r| == 3 * |ids|
    ensures forall x :: x in r <==> x in ids
  {
    if ids == [] then []
    else
      var front := Triple(ids[..|ids| - 1]);
      var x := ids[|ids| - 1];
      assert ids == ids[..|ids| - 1] + [x];
      front + [x, x, x]
  }

  /** The burst ends: back to NONE with the burst counters cleared. */
  function EndRandomBurst(s: Sched, now: int): Sched {
    s.(pattern := NoPattern, randomBurstPhase := 0, randomBurstCycle := 0, randomBurstWait := 0,
       cooldownResetAt := ResetIfCreated(s.cooldownResetAt, now), patternStartTime := now)
  }

  function FireRandomBurstPattern(s: Sched, cols: Grid, ships: Ships, now: int): (Sched, seq<ShipId>)
  {
    if s.randomBurstWait > 0 then (s.(randomBurstWait := s.randomBurstWait - 1), [])
    else if s.randomBurstPhase == 0 then
      (s.(randomBurstPhase := 1, randomBurstWait := BurstWait), FilterLive(ColumnEnds(cols, false), ships))
    else if s.randomBurstPhase == 1 then
      (s.(randomBurstPhase := 2), FilterLive(ColumnEnds(cols, false), ships))
    else if s.randomBurstPhase == 2 then
      var fired := Triple(FilterLive(ColumnEnds(cols, true), ships));
      var t := s.(randomBurstCycle := s.randomBurstCycle + 1);
      if t.randomBurstCycle >= BurstMax then (EndRandomBurst(t, now), fired)
      else (t.(randomBurstPhase := 0, randomBurstWait := BurstWait), fired)
    else (s, [])
  }

  // ---------------------------------------------------------------------------
  // NONE and the dispatch.

  /** fireNormalRandom: the roster member at index (int) (rand * n). */
  function FireNormalRandom(shooters: seq<ShipId>, rand: real): (r: seq<ShipId>)
    requires shooters != [] && 0.0 <= rand < 1.0
    ensures |r| == 1 && r[0] in shooters
  {
    [shooters[RandomIndex(rand, |shooters|)]]
  }

  /** One call of `shoot`: the new scheduler state and the ships that fire, in order. */
  function ShootStep(s: Sched, e: Env): (r: (Sched, seq<ShipId>))
    requires SchedOk(s) && EnvOk(e)
    requires e.shooters != [] ==> s.cooldownResetAt.Some?
    ensures e.shooters == [] ==> r == (s, [])
    ensures forall x :: x in r.1 ==> x in e.shooters || Live(x, e.ships)
  {
    if e.shooters == [] then (s, [])
    else
      match s.pattern
      case Wave => HandleWaveShoot(s, e.shooters, e.now)
      case SideWave => HandleSideWaveShoot(s, e.shooters, e.now)
      case Focus => FireFocusPattern(s, e.shooters, e.ships, e.now, e.rand)
      case RandomBurst =>
        if !e.cooldownFinished then (s, [])
        else
          var fired := FireRandomBurstPattern(s.(cooldownResetAt := Some(e.now)), e.cols, e.ships, e.now);
          assert forall x :: x in fired.1 ==> Live(x, e.ships);
          fired
      case NoPattern =>
        if !e.cooldownFinished then (s, [])
        else (s.(cooldownResetAt := Some(e.now)), FireNormalRandom(e.shooters, e.rand))
  }

  /** Every handler keeps the counters in range. */
  lemma ShootStepKeepsSchedOk(s: Sched, e: Env)
    requires SchedOk(s) && EnvOk(e)
    requires e.shooters != [] ==> s.cooldownResetAt.Some?
    ensures SchedOk(ShootStep(s, e).0)
    ensures ShootStep(s, e).0.cooldownResetAt.Some? || ShootStep(s, e).0.cooldownResetAt == s.cooldownResetAt
  {
    if e.shooters != [] {
      match s.pattern
      case Wave =>
      case SideWave =>
      case Focus =>
      case RandomBurst =>
      case NoPattern =>
    }
  }

  /**
   * The cooldown gates only NONE and RANDOM_BURST: while it runs they do
   * nothing, and when they act they reset it. WAVE, SIDE_WAVE and FOCUS
   * act whatever the cooldown says.
   */
  lemma CooldownGate(s: Sched, e: Env)
    requires SchedOk(s) && EnvOk(e) && e.shooters != [] && s.cooldownResetAt.Some?
    ensures (s.pattern == NoPattern || s.pattern == RandomBurst) && !e.cooldownFinished ==> ShootStep(s, e) == (s, [])
    ensures (s.pattern == NoPattern || s.pattern == RandomBurst) && e.cooldownFinished ==>
              ShootStep(s, e).0.cooldownResetAt == Some(e.now) && (s.pattern == NoPattern ==> |ShootStep(s, e).1| == 1)
    ensures s.pattern in {Wave, SideWave, Focus} ==>
              ShootStep(s, e) == ShootStep(s, e.(cooldownFinished := !e.cooldownFinished))
  {
  }

  // ---------------------------------------------------------------------------
  // Runs of several calls with the same inputs.

  /**
   * One call of `shoot` as a step on the scheduler, for `Run`. Outside the
   * states `ShootStep` is defined on it does nothing; runs never leave them.
   */
  function Step(e: Env): Sched -> (Sched, seq<ShipId>) {
    t => if SchedOk(t) && EnvOk(e) && t.cooldownResetAt.Some? then ShootStep(t, e) else (t, [])
  }

  /** The states runs stay in: counters in range and the cooldown created. */
  predicate Started(s: Sched) {
    SchedOk(s) && s.cooldownResetAt.Some?
  }

  /** Any number of calls keeps the counters in range. */
  lemma ShootNKeepsSchedOk(s: Sched, e: Env, k: nat)
    requires Started(s) && EnvOk(e)
    ensures Started(Run(Step(e), s, k).0)
  {
    forall t | Started(t)
      ensures Started(Step(e)(t).0)
    {
      ShootStepKeepsSchedOk(t, e);
    }
    RunKeeps(Step(e), Started, s, k);
  }

  /** On started WAVE states a step is handleWaveShoot. */
  ghost predicate ActsOnWave(f: Sched -> (Sched, seq<ShipId>), shooters: seq<ShipId>, now: int) {
    forall t {:trigger f(t), Started(t)} :: Started(t) && t.pattern == Wave ==> f(t) == HandleWaveShoot(t, shooters, now)
  }

  /** On started SIDE_WAVE states a step is handleSideWaveShoot. */
  ghost predicate ActsOnSideWave(f: Sched -> (Sched, seq<ShipId>), shooters: seq<ShipId>, now: int) {
    forall t {:trigger f(t), Started(t)} :: Started(t) && t.pattern == SideWave ==> f(t) == HandleSideWaveShoot(t, shooters, now)
  }

  /** With a roster, `shoot` hands WAVE and SIDE_WAVE states to their handlers whatever the cooldown says. */
  lemma StepActsOnWaves(e: Env)
    requires EnvOk(e) && e.shooters != []
    ensures ActsOnWave(Step(e), e.shooters, e.now)
    ensures ActsOnSideWave(Step(e), e.shooters, e.now)
  {
  }

  // ---------------------------------------------------------------------------
  // A WAVE run.

  /** Below the 20th call a wave or side-wave step only counts. */
  lemma {:induction false} WaveWait(f: Sched -> (Sched, seq<ShipId>), shooters: seq<ShipId>, now: int, s: Sched, j: nat)
    requires Started(s) && s.waveFrameCounter + j < WaveStep
    requires (s.pattern == Wave && ActsOnWave(f, shooters, now)) || (s.pattern == SideWave && ActsOnSideWave(f, shooters, now))
    ensures Run(f, s, j) == (s.(waveFrameCounter := s.waveFrameCounter + j), [])
  {
    if j > 0 {
      WaveWait(f, shooters, now, s, j - 1);
      var t := s.(waveFrameCounter := s.waveFrameCounter + j - 1);
      assert Started(t);
      assert f(t) == (t.(waveFrameCounter := t.waveFrameCounter + 1), []);
      var nothing: seq<ShipId> := [];
      assert nothing + nothing == nothing;
    }
  }

  /** The twentieth call of a wave or side wave: 19 calls only count, then the handler fires. */
  lemma WaveTwenty(f: Sched -> (Sched, seq<ShipId>), s: Sched)
    requires Run(f, s, WaveStep - 1) == (s.(waveFrameCounter := WaveStep - 1), [])
    ensures Run(f, s, WaveStep) == f(s.(waveFrameCounter := WaveStep - 1))
  {
    var t := s.(waveFrameCounter := WaveStep - 1);
    RunAdd(f, s, WaveStep - 1, 1);
    RunOne(f, t);
    var nothing: seq<ShipId> := [];
    assert nothing + f(t).1 == f(t).1;
  }

  /** The state a wave leaves behind: NONE, counters cleared, cooldown and pattern clock restarted. */
  function WaveEnd(s: Sched, now: int): Sched {
    s.(pattern := NoPattern, waveIndex := 0, waveFrameCounter := 0, cooldownResetAt := Some(now), patternStartTime := now)
  }

  /** Twenty calls from a fresh counter fire the next roster member, or end the wave once all have fired. */
  lemma WaveSegment(f: Sched -> (Sched, seq<ShipId>), shooters: seq<ShipId>, now: int, s: Sched)
    requires ActsOnWave(f, shooters, now) && shooters != []
    requires Started(s) && s.pattern == Wave && s.waveFrameCounter == 0 && s.waveIndex <= |shooters|
    ensures Run(f, s, WaveStep) ==
              if s.waveIndex < |shooters| then (s.(waveIndex := s.waveIndex + 1), [shooters[s.waveIndex]])
              else (WaveEnd(s, now), [])
  {
    WaveWait(f, shooters, now, s, WaveStep - 1);
    WaveTwenty(f, s);
  }

  lemma {:induction false} WaveFrom(f: Sched -> (Sched, seq<ShipId>), shooters: seq<ShipId>, now: int, s: Sched)
    requires ActsOnWave(f, shooters, now) && shooters != []
    requires Started(s) && s.pattern == Wave && s.waveFrameCounter == 0 && s.waveIndex <= |shooters|
    ensures Run(f, s, 20 * (|shooters| - s.waveIndex + 1)) == (WaveEnd(s, now), shooters[s.waveIndex..])
    decreases |shooters| - s.waveIndex
  {
    var n, i := |shooters|, s.waveIndex;
    if i == n {
      WaveSegment(f, shooters, now, s);
    } else {
      var t := s.(waveIndex := i + 1);
      assert Run(f, s, WaveStep) == (t, [shooters[i]]) by { WaveSegment(f, shooters, now, s); }
      assert Run(f, t, 20 * (n - i)) == (WaveEnd(s, now), shooters[i + 1..]) by {
        assert 20 * (n - i) == 20 * (|shooters| - t.waveIndex + 1);
        WaveFrom(f, shooters, now, t);
        assert WaveEnd(t, now) == WaveEnd(s, now);
      }
      assert 20 * (n - i + 1) == 20 + 20 * (n - i);
      RunAdd(f, s, WaveStep, 20 * (n - i));
      assert shooters[i..] == [shooters[i]] + shooters[i + 1..];
    }
  }

  /**
   * A wave over a roster of n that does not change: after 20 (n + 1) calls
   * every shooter has fired exactly once, left to right, and the scheduler is
   * back at NONE with the cooldown and the pattern clock restarted.
   */
  lemma WaveRun(s: Sched, e: Env)
    requires Started(s) && EnvOk(e) && e.shooters != []
    requires s.pattern == Wave && s.waveFrameCounter == 0 && s.waveIndex == 0
    ensures Run(Step(e), s, 20 * (|e.shooters| + 1)) == (WaveEnd(s, e.now), e.shooters)
  {
    assert 20 * (|e.shooters| + 1) == 20 * (|e.shooters| - s.waveIndex + 1);
    StepActsOnWaves(e);
    WaveFrom(Step(e), e.shooters, e.now, s);
  }

  // ---------------------------------------------------------------------------
  // A SIDE_WAVE run.

  /** The state a side wave leaves behind. */
  function SideWaveEnd(s: Sched, now: int): Sched {
    s.(pattern := NoPattern, sideWavePairIndex := 0, waveFrameCounter := 0, cooldownResetAt := Some(now), patternStartTime := now)
  }

  /** Twenty calls from a fresh counter fire the next pair, or end the side wave once the pairs meet. */
  lemma SideWaveSegment(f: Sched -> (Sched, seq<ShipId>), shooters: seq<ShipId>, now: int, s: Sched)
    requires ActsOnSideWave(f, shooters, now)
    requires Started(s) && s.pattern == SideWave && s.waveFrameCounter == 0
    ensures var k := s.sideWavePairIndex;
            Run(f, s, WaveStep) ==
              if k < (|shooters| + 1) / 2 then (s.(sideWavePairIndex := k + 1), SidePair(shooters, k))
              else (SideWaveEnd(s, now), [])
  {
    WaveWait(f, shooters, now, s, WaveStep - 1);
    WaveTwenty(f, s);
  }

  lemma {:induction false} SideWaveFrom(f: Sched -> (Sched, seq<ShipId>), shooters: seq<ShipId>, now: int, s: Sched)
    requires ActsOnSideWave(f, shooters, now)
    requires Started(s) && s.pattern == SideWave && s.waveFrameCounter == 0 && s.sideWavePairIndex <= (|shooters| + 1) / 2
    ensures var m := (|shooters| + 1) / 2 - s.sideWavePairIndex;
            Run(f, s, 20 * (m + 1)) == (SideWaveEnd(s, now), SidePairs(shooters, s.sideWavePairIndex))
    decreases (|shooters| + 1) / 2 - s.sideWavePairIndex
  {
    var h, k := (|shooters| + 1) / 2, s.sideWavePairIndex;
    if k == h {
      SideWaveSegment(f, shooters, now, s);
    } else {
      var t := s.(sideWavePairIndex := k + 1);
      assert Run(f, s, WaveStep) == (t, SidePair(shooters, k)) by { SideWaveSegment(f, shooters, now, s); }
      assert Run(f, t, 20 * (h - k)) == (SideWaveEnd(s, now), SidePairs(shooters, k + 1)) by {
        assert 20 * (h - k) == 20 * ((|shooters| + 1) / 2 - t.sideWavePairIndex + 1);
        SideWaveFrom(f, shooters, now, t);
        assert SideWaveEnd(t, now) == SideWaveEnd(s, now);
      }
      assert 20 * (h - k + 1) == 20 + 20 * (h - k);
      RunAdd(f, s, WaveStep, 20 * (h - k));
    }
  }

  /**
   * A side wave over a roster of n that does not change: after
   * 20 ((n + 1) / 2 + 1) calls it has fired the pairs from the outside in,
   * every member once, and the scheduler is back at NONE.
   */
  lemma SideWaveRun(f: Sched -> (Sched, seq<ShipId>), shooters: seq<ShipId>, now: int, s: Sched)
    requires ActsOnSideWave(f, shooters, now)
    requires Started(s) && s.pattern == SideWave && s.waveFrameCounter == 0 && s.sideWavePairIndex == 0
    ensures var r := Run(f, s, 20 * ((|shooters| + 1) / 2 + 1));
            r.0 == SideWaveEnd(s, now) && r.1 == SidePairs(shooters, 0) &&
            multiset(r.1) == multiset(shooters) && |r.1| == |shooters|
  {
    var calls := 20 * ((|shooters| + 1) / 2 + 1);
    assert calls == 20 * ((|shooters| + 1) / 2 - s.sideWavePairIndex + 1);
    SideWaveFrom(f, shooters, now, s);
    SideWaveFiresEachOnce(shooters);
  }

  // ---------------------------------------------------------------------------
  // FOCUS groups and a FOCUS group run.

  /**
   * The three focus groups split the roster into [0, t), [t, 2t) and [2t, n)
   * with t = n / 3: together they are the roster, in order, and the last
   * group is never empty; all three are empty when the roster is.
   */
  lemma FocusGroupsPartition(shooters: seq<ShipId>)
    ensures shooters == [] ==> FocusGroup(shooters, 0) == [] && FocusGroup(shooters, 1) == [] && FocusGroup(shooters, 2) == []
    ensures shooters != [] ==>
              FocusGroup(shooters, 0) + FocusGroup(shooters, 1) + FocusGroup(shooters, 2) == shooters &&
              FocusGroup(shooters, 2) != [] &&
              |FocusGroup(shooters, 0)| == |FocusGroup(shooters, 1)| == |shooters| / 3
  {
    var n := |shooters|;
    if n > 0 {
      var t := n / 3;
      assert FocusGroup(shooters, 0) == shooters[..t];
      assert FocusGroup(shooters, 1) == shooters[t..2 * t];
      assert FocusGroup(shooters, 2) == shooters[2 * t..];
      assert shooters[..t] + shooters[t..2 * t] + shooters[2 * t..] == shooters;
    }
  }

  /** On started FOCUS states a step is fireFocusPattern with the given random draw. */
  ghost predicate ActsOnFocus(f: Sched -> (Sched, seq<ShipId>), shooters: seq<ShipId>, ships: Ships, now: int, rand: real) {
    0.0 <= rand < 1.0 &&
    forall t {:trigger f(t), Started(t)} :: Started(t) && t.pattern == Focus ==> f(t) == FireFocusPattern(t, shooters, ships, now, rand)
  }

  /** With a roster, `shoot` hands FOCUS states to fireFocusPattern whatever the cooldown says. */
  lemma StepActsOnFocus(e: Env)
    requires EnvOk(e) && e.shooters != []
    ensures ActsOnFocus(Step(e), e.shooters, e.ships, e.now, e.rand)
  {
  }

  /** A focus state with group `g` selected and fewer than ten groups used. */
  predicate FocusSelected(s: Sched) {
    Started(s) && s.pattern == Focus && 0 <= s.focusGroupIndex <= 2 && s.focusGroupUsed < FocusMax
  }

  /** Below the 10th call with a group selected, a focus step only counts. */
  lemma {:induction false} FocusWait(f: Sched -> (Sched, seq<ShipId>), shooters: seq<ShipId>, ships: Ships, now: int, rand: real, s: Sched, j: nat)
    requires ActsOnFocus(f, shooters, ships, now, rand)
    requires FocusSelected(s) && s.focusFrameCounter + j < FocusStep
    ensures Run(f, s, j) == (s.(focusFrameCounter := s.focusFrameCounter + j), [])
  {
    if j > 0 {
      FocusWait(f, shooters, ships, now, rand, s, j - 1);
      var t := s.(focusFrameCounter := s.focusFrameCounter + j - 1);
      assert Started(t);
      assert f(t) == (t.(focusFrameCounter := t.focusFrameCounter + 1), []);
      var nothing: seq<ShipId> := [];
      assert nothing + nothing == nothing;
    }
  }

  /** The live ones among a group's members from the k-th on: the k-th if live, then the rest. */
  lemma FilterLiveFrom(group: seq<ShipId>, k: nat, ships: Ships)
    requires k < |group|
    ensures FilterLive(group[k..], ships) == (if Live(group[k], ships) then [group[k]] else []) + FilterLive(group[k + 1..], ships)
  {
    assert group[k..] == [group[k]] + group[k + 1..];
    FilterLiveAppend([group[k]], group[k + 1..], ships);
    assert [group[k]][..0] == [];
  }

  /** Ten calls from a fresh frame counter: the first nine count, the tenth acts. */
  lemma FocusNine(f: Sched -> (Sched, seq<ShipId>), shooters: seq<ShipId>, ships: Ships, now: int, rand: real, s: Sched)
    requires ActsOnFocus(f, shooters, ships, now, rand)
    requires FocusSelected(s) && s.focusFrameCounter == 0
    ensures Run(f, s, 10) == f(s.(focusFrameCounter := 9))
  {
    FocusWait(f, shooters, ships, now, rand, s, 9);
    var t := s.(focusFrameCounter := 9);
    RunAdd(f, s, 9, 1);
    RunOne(f, t);
    var nothing: seq<ShipId> := [];
    assert nothing + f(t).1 == f(t).1;
  }

  /** The tenth call fires the group's next member if it is live; a destroyed one is skipped but still counted. */
  lemma FocusFires(f: Sched -> (Sched, seq<ShipId>), shooters: seq<ShipId>, ships: Ships, now: int, rand: real, s: Sched)
    requires ActsOnFocus(f, shooters, ships, now, rand)
    requires FocusSelected(s) && s.focusFrameCounter == 0
    requires s.focusStepInGroup < |FocusGroup(shooters, s.focusGroupIndex)|
    ensures var member := FocusGroup(shooters, s.focusGroupIndex)[s.focusStepInGroup];
            Run(f, s, 10) == (s.(focusStepInGroup := s.focusStepInGroup + 1), if Live(member, ships) then [member] else [])
  {
    FocusNine(f, shooters, ships, now, rand, s);
    var t := s.(focusFrameCounter := 9);
    assert Started(t);
  }

  /** Once every member has had its turn, the tenth call ends the group. */
  lemma FocusEnds(f: Sched -> (Sched, seq<ShipId>), shooters: seq<ShipId>, ships: Ships, now: int, rand: real, s: Sched)
    requires ActsOnFocus(f, shooters, ships, now, rand)
    requires FocusSelected(s) && s.focusFrameCounter == 0
    requires s.focusStepInGroup >= |FocusGroup(shooters, s.focusGroupIndex)|
    ensures Run(f, s, 10) == (EndFocusGroup(s, now), [])
  {
    FocusNine(f, shooters, ships, now, rand, s);
    var t := s.(focusFrameCounter := 9);
    assert Started(t);
  }

  /** One member's turn followed by the rest of the group is the group from that member on. */
  lemma FocusTurn(f: Sched -> (Sched, seq<ShipId>), group: seq<ShipId>, ships: Ships, k: nat, s: Sched, t: Sched, rest: Sched)
    requires k < |group|
    requires Run(f, s, 10) == (t, if Live(group[k], ships) then [group[k]] else [])
    requires Run(f, t, 10 * (|group| - k)) == (rest, FilterLive(group[k + 1..], ships))
    ensures Run(f, s, 10 * (|group| - k + 1)) == (rest, FilterLive(group[k..], ships))
  {
    var n := |group|;
    var first := if Live(group[k], ships) then [group[k]] else [];
    FilterLiveFrom(group, k, ships);
    RunThen(f, s, 10, t, first, 10 * (n - k), rest, FilterLive(group[k + 1..], ships), 10 * (n - k + 1), FilterLive(group[k..], ships));
  }

  lemma {:induction false} FocusFrom(f: Sched -> (Sched, seq<ShipId>), shooters: seq<ShipId>, ships: Ships, now: int, rand: real, s: Sched)
    requires ActsOnFocus(f, shooters, ships, now, rand)
    requires FocusSelected(s) && s.focusFrameCounter == 0
    requires s.focusStepInGroup <= |FocusGroup(shooters, s.focusGroupIndex)|
    ensures var group := FocusGroup(shooters, s.focusGroupIndex);
            var m := |group| - s.focusStepInGroup;
            Run(f, s, 10 * (m + 1)) ==
              (EndFocusGroup(s.(focusStepInGroup := |group|), now), FilterLive(group[s.focusStepInGroup..], ships))
    decreases |FocusGroup(shooters, s.focusGroupIndex)| - s.focusStepInGroup
  {
    var group := FocusGroup(shooters, s.focusGroupIndex);
    var n, k := |group|, s.focusStepInGroup;
    if k == n {
      FocusEnds(f, shooters, ships, now, rand, s);
      assert s.(focusStepInGroup := n) == s;
      assert group[k..] == [];
    } else {
      var t := s.(focusStepInGroup := k + 1);
      var last := EndFocusGroup(s.(focusStepInGroup := n), now);
      assert Run(f, t, 10 * (n - k)) == (last, FilterLive(group[k + 1..], ships)) by {
        assert 10 * (n - k) == 10 * (n - t.focusStepInGroup + 1);
        FocusFrom(f, shooters, ships, now, rand, t);
        assert t.(focusStepInGroup := n) == s.(focusStepInGroup := n);
      }
      FocusFires(f, shooters, ships, now, rand, s);
      FocusTurn(f, group, ships, k, s, t, last);
    }
  }

  /**
   * A focus group over a roster that does not change: once selected, the
   * group's live members fire one every 10 calls, in order, and after
   * 10 (m + 1) calls for a group of m the group is deselected, counted as
   * used, and the 500 ms pause set.
   */
  lemma FocusGroupRun(f: Sched -> (Sched, seq<ShipId>), shooters: seq<ShipId>, ships: Ships, now: int, rand: real, s: Sched)
    requires ActsOnFocus(f, shooters, ships, now, rand)
    requires FocusSelected(s) && s.focusFrameCounter == 0 && s.focusStepInGroup == 0
    ensures var group := FocusGroup(shooters, s.focusGroupIndex);
            var r := Run(f, s, 10 * (|group| + 1));
            r.1 == FilterLive(group, ships) &&
            r.0 == s.(focusGroupIndex := -1, focusStepInGroup := |group|, focusGroupUsed := s.focusGroupUsed + 1,
                      focusDelayUntil := now + FocusDelayMs)
  {
    var group := FocusGroup(shooters, s.focusGroupIndex);
    assert 10 * (|group| + 1) == 10 * (|group| - s.focusStepInGroup + 1);
    FocusFrom(f, shooters, ships, now, rand, s);
    assert group[0..] == group;
  }

  /** Ten groups used: the next call ends the pattern, whatever else holds. */
  lemma FocusExhausted(f: Sched -> (Sched, seq<ShipId>), shooters: seq<ShipId>, ships: Ships, now: int, rand: real, s: Sched)
    requires ActsOnFocus(f, shooters, ships, now, rand)
    requires Started(s) && s.pattern == Focus && s.focusGroupUsed >= FocusMax
    ensures Run(f, s, 1) == (ResetFocusPattern(s, now), [])
    ensures Run(f, s, 1).0.pattern == NoPattern && Run(f, s, 1).0.focusGroupUsed == 0
  {
    RunOne(f, s);
  }

  /** No group selected: before the pause ends nothing happens; after it, a non-empty group is chosen, or the pattern ends when the roster is empty. */
  lemma FocusSelect(f: Sched -> (Sched, seq<ShipId>), shooters: seq<ShipId>, ships: Ships, now: int, rand: real, s: Sched)
    requires ActsOnFocus(f, shooters, ships, now, rand)
    requires Started(s) && s.pattern == Focus && s.focusGroupUsed < FocusMax && s.focusGroupIndex == -1
    ensures s.focusDelayUntil > 0 && now < s.focusDelayUntil ==> f(s) == (s, [])
    ensures !(s.focusDelayUntil > 0 && now < s.focusDelayUntil) && shooters != [] ==>
              var t := f(s).0;
              t.focusGroupIndex in {0, 1, 2} && FocusGroup(shooters, t.focusGroupIndex) != [] &&
              t.focusStepInGroup == 0 && t.focusFrameCounter == 1 && f(s).1 == []
    ensures !(s.focusDelayUntil > 0 && now < s.focusDelayUntil) && shooters == [] ==>
              f(s) == (ResetFocusPattern(s, now), []) && f(s).0.pattern == NoPattern
  {
    if !(s.focusDelayUntil > 0 && now < s.focusDelayUntil) && shooters != [] {
      FocusGroupsPartition(shooters);
      assert 2 in AvailableGroups(shooters);
    }
  }

  // ---------------------------------------------------------------------------
  // A RANDOM_BURST run.

  /** On started RANDOM_BURST states a step resets the cooldown and runs fireRandomBurstPattern. */
  ghost predicate ActsOnBurst(f: Sched -> (Sched, seq<ShipId>), cols: Grid, ships: Ships, now: int) {
    forall t {:trigger f(t), Started(t)} :: Started(t) && t.pattern == RandomBurst ==>
      f(t) == FireRandomBurstPattern(t.(cooldownResetAt := Some(now)), cols, ships, now)
  }

  /** With a roster and the cooldown elapsed, `shoot` hands RANDOM_BURST states to fireRandomBurstPattern. */
  lemma StepActsOnBurst(e: Env)
    requires EnvOk(e) && e.shooters != [] && e.cooldownFinished
    ensures ActsOnBurst(Step(e), e.cols, e.ships, e.now)
  {
  }

  /** The bottom ships of the taller columns that are still live: one burst volley. */
  function BurstVolley(cols: Grid, ships: Ships): seq<ShipId> {
    FilterLive(ColumnEnds(cols, false), ships)
  }

  /** The lone ships that are still live, three shots each: the triple volley. */
  function BurstTriple(cols: Grid, ships: Ships): seq<ShipId> {
    Triple(FilterLive(ColumnEnds(cols, true), ships))
  }

  /** One call on a started burst state, as a run of length one. */
  lemma BurstCall(f: Sched -> (Sched, seq<ShipId>), cols: Grid, ships: Ships, now: int, t: Sched)
    requires ActsOnBurst(f, cols, ships, now) && Started(t) && t.pattern == RandomBurst
    ensures Run(f, t, 1) == FireRandomBurstPattern(t.(cooldownResetAt := Some(now)), cols, ships, now)
  {
    RunOne(f, t);
  }

  /**
   * One burst cycle from its start: a volley, two waiting calls, a second
   * volley, then the triple volley, after which the cycle is counted and
   * either the next cycle waits two calls or, after the last cycle, the
   * pattern ends.
   */
  lemma BurstCycle(f: Sched -> (Sched, seq<ShipId>), cols: Grid, ships: Ships, now: int, s: Sched)
    requires ActsOnBurst(f, cols, ships, now) && Started(s) && s.pattern == RandomBurst
    requires s.randomBurstPhase == 0 && s.randomBurstWait == 0
    ensures var m, t := BurstVolley(cols, ships), BurstTriple(cols, ships);
            var c := s.(cooldownResetAt := Some(now), randomBurstCycle := s.randomBurstCycle + 1);
            Run(f, s, 5) ==
              (if c.randomBurstCycle >= BurstMax then EndRandomBurst(c, now) else c.(randomBurstWait := BurstWait), m + m + t)
  {
    var m, tr := BurstVolley(cols, ships), BurstTriple(cols, ships);
    var nothing: seq<ShipId> := [];
    var a := s.(cooldownResetAt := Some(now), randomBurstPhase := 1, randomBurstWait := 2);
    var b := a.(randomBurstWait := 1);
    var c := b.(randomBurstWait := 0);
    var d := c.(randomBurstPhase := 2);
    var c' := s.(cooldownResetAt := Some(now), randomBurstCycle := s.randomBurstCycle + 1);
    var e := if c'.randomBurstCycle >= BurstMax then EndRandomBurst(c', now) else c'.(randomBurstWait := BurstWait);
    assert Run(f, s, 1) == (a, m) by { BurstCall(f, cols, ships, now, s); }
    assert Run(f, a, 1) == (b, nothing) by { BurstCall(f, cols, ships, now, a); }
    assert Run(f, b, 1) == (c, nothing) by { BurstCall(f, cols, ships, now, b); }
    assert Run(f, c, 1) == (d, m) by { BurstCall(f, cols, ships, now, c); }
    assert Run(f, d, 1) == (e, tr) by { BurstCall(f, cols, ships, now, d); }
    RunThen(f, s, 1, a, m, 1, b, nothing, 2, m);
    RunThen(f, s, 2, b, m, 1, c, nothing, 3, m);
    RunThen(f, s, 3, c, m, 1, d, m, 4, m + m);
    RunThen(f, s, 4, d, m + m, 1, e, tr, 5, m + m + tr);
  }

  /** Between cycles the burst waits two calls and fires nothing. */
  lemma BurstPause(f: Sched -> (Sched, seq<ShipId>), cols: Grid, ships: Ships, now: int, s: Sched)
    requires ActsOnBurst(f, cols, ships, now) && Started(s) && s.pattern == RandomBurst
    requires s.randomBurstWait == BurstWait && s.cooldownResetAt == Some(now)
    ensures Run(f, s, 2) == (s.(randomBurstWait := 0), [])
  {
    var nothing: seq<ShipId> := [];
    var a := s.(randomBurstWait := 1);
    assert Run(f, s, 1) == (a, nothing) by { BurstCall(f, cols, ships, now, s); }
    assert Run(f, a, 1) == (a.(randomBurstWait := 0), nothing) by { BurstCall(f, cols, ships, now, a); }
    RunThen(f, s, 1, a, nothing, 1, a.(randomBurstWait := 0), nothing, 2, nothing);
  }

  /** The first cycle with the pause after it: seven calls, ready for the second cycle. */
  lemma BurstFirstCycle(f: Sched -> (Sched, seq<ShipId>), cols: Grid, ships: Ships, now: int, s: Sched)
    requires ActsOnBurst(f, cols, ships, now) && Started(s) && s.pattern == RandomBurst
    requires s.randomBurstPhase == 0 && s.randomBurstWait == 0 && s.randomBurstCycle == 0
    ensures Run(f, s, 7) ==
              (s.(cooldownResetAt := Some(now), randomBurstCycle := 1), BurstVolley(cols, ships) + BurstVolley(cols, ships) + BurstTriple(cols, ships))
  {
    var cycle := BurstVolley(cols, ships) + BurstVolley(cols, ships) + BurstTriple(cols, ships);
    var nothing: seq<ShipId> := [];
    var a := s.(cooldownResetAt := Some(now), randomBurstCycle := 1, randomBurstWait := BurstWait);
    var b := a.(randomBurstWait := 0);
    assert Run(f, s, 5) == (a, cycle) by { BurstCycle(f, cols, ships, now, s); }
    assert Run(f, a, 2) == (b, nothing) by { assert Started(a); BurstPause(f, cols, ships, now, a); }
    RunThen(f, s, 5, a, cycle, 2, b, nothing, 7, cycle);
    assert b == s.(cooldownResetAt := Some(now), randomBurstCycle := 1);
  }

  /**
   * A whole RANDOM_BURST over a formation that does not change, every call
   * with the cooldown elapsed: twelve calls fire volley, volley, triple,
   * twice, and leave the scheduler in NONE with the burst counters cleared,
   * the cooldown reset and the pattern clock restarted.
   */
  lemma BurstRun(f: Sched -> (Sched, seq<ShipId>), cols: Grid, ships: Ships, now: int, s: Sched)
    requires ActsOnBurst(f, cols, ships, now) && Started(s) && s.pattern == RandomBurst
    requires s.randomBurstPhase == 0 && s.randomBurstWait == 0 && s.randomBurstCycle == 0
    ensures var cycle := BurstVolley(cols, ships) + BurstVolley(cols, ships) + BurstTriple(cols, ships);
            Run(f, s, 12) == (s.(pattern := NoPattern, cooldownResetAt := Some(now), patternStartTime := now), cycle + cycle)
  {
    var cycle := BurstVolley(cols, ships) + BurstVolley(cols, ships) + BurstTriple(cols, ships);
    var b := s.(cooldownResetAt := Some(now), randomBurstCycle := 1);
    var c := s.(pattern := NoPattern, cooldownResetAt := Some(now), patternStartTime := now);
    BurstFirstCycle(f, cols, ships, now, s);
    assert Run(f, b, 5) == (c, cycle) by {
      assert Started(b);
      BurstCycle(f, cols, ships, now, b);
      assert EndRandomBurst(b.(cooldownResetAt := Some(now), randomBurstCycle := 2), now) == c;
    }
    RunThen(f, s, 7, b, cycle, 5, c, cycle, 12, cycle + cycle);
  }
}

/**
 * The four player mechanics as values: each player's state is a record and
 * `reset`, `set_difficulty`, `update` and `check_success` are functions from
 * the old record to the new one.  The classes in module Players are proved
 * to perform exactly these transitions.
 */
module Mechanics {
  import opened Options
  import opened Config

  /** `max(0, min(1, x))`. */
  function Clamp01(x: real): (r: real)
    ensures 0.0 <= r <= 1.0
    ensures 0.0 <= x <= 1.0 ==> r == x
    ensures x < 0.0 ==> r == 0.0
    ensures x > 1.0 ==> r == 1.0
  {
    if x > 1.0 then 1.0 else if x < 0.0 then 0.0 else x
  }

  function Abs(x: real): real {
    if x < 0.0 then -x else x
  }

  // ---------------------------------------------------------------- Builder

  const BuilderFillRate: real := 0.15

  datatype BuilderState = BuilderState(qualityBar: real, decayRate: real, success: bool)

  const BuilderInit := BuilderState(0.0, 0.5, false)

  function BuilderReset(s: BuilderState): (r: BuilderState)
    ensures r.qualityBar == 0.5 && !r.success && r.decayRate == s.decayRate
    ensures BuilderChecked(r).success
  {
    s.(qualityBar := 0.5, success := false)
  }

  function BuilderConfigure(s: BuilderState, decayRate: real): (r: BuilderState)
    ensures r.decayRate == decayRate
    ensures r.qualityBar == s.qualityBar && r.success == s.success
  {
    s.(decayRate := decayRate)
  }

  /** One tick: decay always, fill while either control is held, then clamp. */
  function BuilderUpdate(s: BuilderState, dt: real, any: bool): (r: BuilderState)
    ensures 0.0 <= r.qualityBar <= 1.0
    ensures r.decayRate == s.decayRate && r.success == s.success
  {
    var decayed := s.qualityBar - s.decayRate * dt;
    var filled := if any then decayed + BuilderFillRate * dt else decayed;
    s.(qualityBar := Clamp01(filled))
  }

  function BuilderChecked(s: BuilderState): (r: BuilderState)
    ensures r.success <==> s.qualityBar >= BuilderQualityLine
    ensures r.qualityBar == s.qualityBar && r.decayRate == s.decayRate
  {
    s.(success := s.qualityBar >= BuilderQualityLine)
  }

  /** Whenever decay beats fill, a bar at or below the line drops strictly below it in one tick. */
  lemma BuilderDecaysBelowLine(s: BuilderState, dt: real, any: bool)
    requires s.qualityBar <= BuilderQualityLine
    requires s.decayRate > BuilderFillRate && dt > 0.0
    ensures BuilderUpdate(s, dt, any).qualityBar < BuilderQualityLine
    ensures !BuilderChecked(BuilderUpdate(s, dt, any)).success
  {
    assert (s.decayRate - BuilderFillRate) * dt > 0.0;
    assert BuilderFillRate * dt > 0.0;
    var decayed := s.qualityBar - s.decayRate * dt;
    var filled := if any then decayed + BuilderFillRate * dt else decayed;
    assert filled < BuilderQualityLine;
    assert BuilderUpdate(s, dt, any).qualityBar == Clamp01(filled);
  }

  /** With nothing held and a non-negative decay, the bar never rises. */
  lemma BuilderIdleNeverRises(s: BuilderState, dt: real)
    requires 0.0 <= s.qualityBar <= 1.0
    requires s.decayRate >= 0.0 && dt >= 0.0
    ensures BuilderUpdate(s, dt, false).qualityBar <= s.qualityBar
  {
    assert s.decayRate * dt >= 0.0;
  }

  // ---------------------------------------------------------------- Wrapper

  const CursorSpeed: real := 0.8
  const ZoneCenter: real := 0.5

  datatype WrapperState = WrapperState(
    cursorPosition: real,
    cursorDirection: int,
    zoneSize: real,
    hasPressed: bool,
    pressPosition: Option<real>,
    success: bool)

  const WrapperInit := WrapperState(0.0, 1, 0.3, false, None, false)

  /** The cursor is on the bar, moves one way or the other, and a press is recorded on the bar. */
  predicate WrapperValid(s: WrapperState) {
    0.0 <= s.cursorPosition <= 1.0 &&
    (s.cursorDirection == 1 || s.cursorDirection == -1) &&
    (s.hasPressed <==> s.pressPosition.Some?) &&
    (s.pressPosition.Some? ==> 0.0 <= s.pressPosition.value <= 1.0)
  }

  /** Clears the press and the cursor; the travel direction is kept. */
  function WrapperReset(s: WrapperState): (r: WrapperState)
    ensures WrapperValid(s) ==> WrapperValid(r)
    ensures !r.hasPressed && r.pressPosition == None && r.cursorPosition == 0.0
    ensures r.cursorDirection == s.cursorDirection && r.zoneSize == s.zoneSize
    ensures !WrapperChecked(r).success
  {
    s.(cursorPosition := 0.0, hasPressed := false, pressPosition := None, success := false)
  }

  function WrapperConfigure(s: WrapperState, zoneSize: real): (r: WrapperState)
    ensures r.zoneSize == zoneSize
    ensures WrapperValid(s) ==> WrapperValid(r)
    ensures r.hasPressed == s.hasPressed && r.pressPosition == s.pressPosition && r.success == s.success
  {
    s.(zoneSize := zoneSize)
  }

  /** One tick: until the latch is set, move and bounce, then latch on a press. */
  function WrapperUpdate(s: WrapperState, dt: real, pressed: bool): (r: WrapperState)
    ensures WrapperValid(s) ==> WrapperValid(r)
    ensures s.hasPressed ==> r == s
    ensures !s.hasPressed ==> r.hasPressed == pressed
    ensures !s.hasPressed && pressed ==> r.pressPosition == Some(r.cursorPosition)
    ensures r.zoneSize == s.zoneSize && r.success == s.success
  {
    if s.hasPressed then s
    else
      var moved := s.cursorPosition + CursorSpeed * s.cursorDirection as real * dt;
      var s1 :=
        if moved >= 1.0 then s.(cursorPosition := 1.0, cursorDirection := -1)
        else if moved <= 0.0 then s.(cursorPosition := 0.0, cursorDirection := 1)
        else s.(cursorPosition := moved);
      if pressed then s1.(hasPressed := true, pressPosition := Some(s1.cursorPosition))
      else s1
  }

  /** The zone test; both ends belong to the zone. */
  predicate InZone(p: real, zoneSize: real) {
    ZoneCenter - zoneSize / 2.0 <= p <= ZoneCenter + zoneSize / 2.0
  }

  function WrapperChecked(s: WrapperState): (r: WrapperState)
    ensures r.success <==> s.pressPosition.Some? && InZone(s.pressPosition.value, s.zoneSize)
    ensures s.pressPosition == None ==> !r.success
    ensures r == s.(success := r.success)
  {
    match s.pressPosition
    case None => s.(success := false)
    case Some(p) => s.(success := InZone(p, s.zoneSize))
  }

  /** The bounce: the direction turns to -1 at the right end and to +1 at the left end. */
  lemma WrapperBounce(s: WrapperState, dt: real, pressed: bool)
    requires !s.hasPressed
    ensures var moved := s.cursorPosition + CursorSpeed * s.cursorDirection as real * dt;
            var r := WrapperUpdate(s, dt, pressed);
            (moved >= 1.0 ==> r.cursorPosition == 1.0 && r.cursorDirection == -1) &&
            (moved <= 0.0 ==> r.cursorPosition == 0.0 && r.cursorDirection == 1) &&
            (0.0 < moved < 1.0 ==> r.cursorPosition == moved && r.cursorDirection == s.cursorDirection)
  {
  }

  /** A press exactly at the zone centre, or exactly at either end, always succeeds. */
  lemma ZoneEdgesHit(zoneSize: real)
    requires zoneSize >= 0.0
    ensures InZone(ZoneCenter, zoneSize)
    ensures InZone(ZoneCenter - zoneSize / 2.0, zoneSize)
    ensures InZone(ZoneCenter + zoneSize / 2.0, zoneSize)
  {
  }

  /** Further from the centre than half the zone always fails. */
  lemma FarPressMisses(p: real, zoneSize: real)
    requires Abs(p - ZoneCenter) > zoneSize / 2.0
    ensures !InZone(p, zoneSize)
  {
  }

  /** Once the latch is set, any number of further ticks change nothing. */
  lemma {:induction false} WrapperLatchHolds(s: WrapperState, ticks: seq<(real, bool)>)
    requires s.hasPressed
    ensures WrapperRun(s, ticks) == s
    decreases |ticks|
  {
    if ticks != [] {
      WrapperLatchHolds(s, ticks[..|ticks| - 1]);
    }
  }

  function WrapperRun(s: WrapperState, ticks: seq<(real, bool)>): WrapperState
    decreases |ticks|
  {
    if ticks == [] then s
    else
      var last := ticks[|ticks| - 1];
      WrapperUpdate(WrapperRun(s, ticks[..|ticks| - 1]), last.0, last.1)
  }

  // -------------------------------------------------------------- Decorator

  datatype DecoratorState = DecoratorState(
    arrowSequence: seq<Arrow>,
    currentIndex: nat,
    completed: bool,
    success: bool)

  const DecoratorInit := DecoratorState([], 0, false, false)

  function DecoratorReset(s: DecoratorState): (r: DecoratorState)
    ensures r.arrowSequence == s.arrowSequence
    ensures r.currentIndex == 0 && !r.completed && !r.success
  {
    s.(currentIndex := 0, completed := false, success := false)
  }

  /** The sequence is the first `count` draws of the random source `pick`. */
  function DecoratorConfigure(s: DecoratorState, count: nat, pick: nat -> Arrow): (r: DecoratorState)
    ensures |r.arrowSequence| == count
    ensures forall i :: 0 <= i < count ==> r.arrowSequence[i] == pick(i)
    ensures r.currentIndex == s.currentIndex && r.completed == s.completed && r.success == s.success
  {
    s.(arrowSequence := seq(count, i requires 0 <= i < count => pick(i)))
  }

  /**
   * One tick with the directions pressed this frame: a completed matcher is
   * frozen; an index past the end completes it; the expected arrow among the
   * pressed ones advances; any other press restarts from 0.
   */
  function DecoratorUpdate(s: DecoratorState, pressed: seq<Arrow>): (r: DecoratorState)
    ensures r.arrowSequence == s.arrowSequence
    ensures s.completed ==> r == s
    ensures r.completed <==> s.completed || s.currentIndex >= |s.arrowSequence|
    ensures r.success <==> s.success || (!s.completed && s.currentIndex >= |s.arrowSequence|)
    ensures s.currentIndex <= |s.arrowSequence| ==> r.currentIndex <= |r.arrowSequence|
    ensures (s.success ==> s.completed) ==> (r.success ==> r.completed)
  {
    if s.completed then s
    else if s.currentIndex >= |s.arrowSequence| then s.(completed := true, success := true)
    else
      var expected := s.arrowSequence[s.currentIndex];
      if expected in pressed then s.(currentIndex := s.currentIndex + 1)
      else if |pressed| > 0 then s.(currentIndex := 0)
      else s
  }

  /** The three cases of a tick before completion, with the inclusion test for the expected arrow. */
  lemma DecoratorStepCases(s: DecoratorState, pressed: seq<Arrow>)
    requires !s.completed && s.currentIndex < |s.arrowSequence|
    ensures var r := DecoratorUpdate(s, pressed);
            !r.completed && !r.success == !s.success &&
            (s.arrowSequence[s.currentIndex] in pressed ==> r.currentIndex == s.currentIndex + 1) &&
            (s.arrowSequence[s.currentIndex] !in pressed && |pressed| > 0 ==> r.currentIndex == 0) &&
            (pressed == [] ==> r == s)
  {
  }

  function DecoratorRun(s: DecoratorState, inputs: seq<seq<Arrow>>): DecoratorState
    decreases |inputs|
  {
    if inputs == [] then s
    else DecoratorUpdate(DecoratorRun(s, inputs[..|inputs| - 1]), inputs[|inputs| - 1])
  }

  /** One tick per arrow, each pressing exactly that arrow. */
  function Echo(q: seq<Arrow>): (r: seq<seq<Arrow>>)
    ensures |r| == |q|
    ensures forall i :: 0 <= i < |q| ==> r[i] == [q[i]]
  {
    seq(|q|, i requires 0 <= i < |q| => [q[i]])
  }

  /** Entering the first k arrows correctly from a fresh start leaves the index at k, not yet completed. */
  lemma {:induction false} DecoratorCorrectPrefix(s: DecoratorState, k: nat)
    requires s.currentIndex == 0 && !s.completed && !s.success
    requires k <= |s.arrowSequence|
    ensures var r := DecoratorRun(s, Echo(s.arrowSequence[..k]));
            r.currentIndex == k && !r.completed && !r.success && r.arrowSequence == s.arrowSequence
  {
    if k > 0 {
      var q := s.arrowSequence[..k];
      assert Echo(q)[..k - 1] == Echo(s.arrowSequence[..k - 1]);
      DecoratorCorrectPrefix(s, k - 1);
    }
  }

  /**
   * N correct arrows followed by one more tick (any input) complete the
   * matcher with success and index N: completion is seen on the tick after
   * the index reaches the end.
   */
  lemma DecoratorPerfectRun(s: DecoratorState, last: seq<Arrow>)
    requires s.currentIndex == 0 && !s.completed && !s.success
    ensures var n := |s.arrowSequence|;
            var before := DecoratorRun(s, Echo(s.arrowSequence));
            var after := DecoratorUpdate(before, last);
            before.currentIndex == n && !before.completed &&
            after.completed && after.success && after.currentIndex == n
  {
    assert s.arrowSequence[..|s.arrowSequence|] == s.arrowSequence;
    DecoratorCorrectPrefix(s, |s.arrowSequence|);
  }

  /** A wrong arrow after k correct ones (k short of the end) restarts the sequence from 0. */
  lemma DecoratorWrongResets(s: DecoratorState, k: nat, wrong: Arrow)
    requires s.currentIndex == 0 && !s.completed && !s.success
    requires k < |s.arrowSequence| && wrong != s.arrowSequence[k]
    ensures DecoratorRun(s, Echo(s.arrowSequence[..k]) + [[wrong]]).currentIndex == 0
  {
    var inputs := Echo(s.arrowSequence[..k]) + [[wrong]];
    assert inputs[..|inputs| - 1] == Echo(s.arrowSequence[..k]);
    DecoratorCorrectPrefix(s, k);
  }

  /** The tick that enters the last arrow reaches the end but does not yet complete or succeed. */
  lemma DecoratorLastArrowPending(s: DecoratorState, pressed: seq<Arrow>)
    requires !s.completed && !s.success && |s.arrowSequence| > 0
    requires s.currentIndex == |s.arrowSequence| - 1 && s.arrowSequence[s.currentIndex] in pressed
    ensures var r := DecoratorUpdate(s, pressed);
            r.currentIndex == |r.arrowSequence| && !r.completed && !r.success
  {
  }

  /** An empty sequence completes on its first tick, whatever is pressed. */
  lemma DecoratorEmptyCompletes(s: DecoratorState, pressed: seq<Arrow>)
    requires !s.completed && s.arrowSequence == []
    ensures DecoratorUpdate(s, pressed).completed && DecoratorUpdate(s, pressed).success
  {
  }

  // ---------------------------------------------------------------- Foreman

  const DriftSpeed: real := 0.3
  const ControlSpeed: real := 0.6

  datatype ForemanState = ForemanState(needlePosition: real, driftMultiplier: real, success: bool)

  const ForemanInit := ForemanState(0.5, 1.0, false)

  function ForemanReset(s: ForemanState): (r: ForemanState)
    ensures r.needlePosition == 0.5 && !r.success && r.driftMultiplier == s.driftMultiplier
    ensures ForemanChecked(r).success
  {
    s.(needlePosition := 0.5, success := false)
  }

  /** NIGHTMARE drifts at 2.5, STANDARD at 1.5, everything else at 1.0. */
  function ForemanConfigure(s: ForemanState, tier: Tier): (r: ForemanState)
    ensures tier == Nightmare ==> r.driftMultiplier == 2.5
    ensures tier == Standard ==> r.driftMultiplier == 1.5
    ensures tier == Easy ==> r.driftMultiplier == 1.0
    ensures r.needlePosition == s.needlePosition && r.success == s.success
  {
    if tier == Nightmare then s.(driftMultiplier := NightmareDriftMultiplier)
    else if tier == Standard then s.(driftMultiplier := StandardDriftMultiplier)
    else s.(driftMultiplier := EasyDriftMultiplier)
  }

  /** One tick with drift sample `sample`: drift, then left/right correction, then clamp. */
  function ForemanUpdate(s: ForemanState, dt: real, sample: real, left: bool, right: bool): (r: ForemanState)
    ensures 0.0 <= r.needlePosition <= 1.0
    ensures r.driftMultiplier == s.driftMultiplier && r.success == s.success
  {
    var drifted := s.needlePosition + Drift(sample, s.driftMultiplier, dt);
    var afterLeft := if left then drifted - ControlSpeed * dt else drifted;
    var afterRight := if right then afterLeft + ControlSpeed * dt else afterLeft;
    s.(needlePosition := Clamp01(afterRight))
  }

  /** The needle's random movement over one tick. */
  function Drift(sample: real, multiplier: real, dt: real): real {
    sample * DriftSpeed * multiplier * dt
  }

  /** The strict centre test. */
  function ForemanChecked(s: ForemanState): (r: ForemanState)
    ensures r.success <==> 0.2 < s.needlePosition < 0.8
    ensures r == s.(success := r.success)
  {
    s.(success := Abs(s.needlePosition - 0.5) < 0.3)
  }

  /** Holding both controls is the same as holding neither. */
  lemma ForemanBothHeldCancel(s: ForemanState, dt: real, sample: real)
    ensures ForemanUpdate(s, dt, sample, true, true) == ForemanUpdate(s, dt, sample, false, false)
  {
  }

  /** No drift and nothing held leave a needle on the gauge where it is. */
  lemma ForemanStill(s: ForemanState, dt: real)
    requires 0.0 <= s.needlePosition <= 1.0
    ensures ForemanUpdate(s, dt, 0.0, false, false) == s
  {
  }

  function ForemanRun(s: ForemanState, ticks: seq<(real, real)>): ForemanState
    decreases |ticks|
  {
    if ticks == [] then s
    else
      var last := ticks[|ticks| - 1];
      ForemanUpdate(ForemanRun(s, ticks[..|ticks| - 1]), last.0, last.1, false, false)
  }

  /** With no drift and nothing held, a needle on the gauge stays put for any number of ticks. */
  lemma {:induction false} ForemanCalmRun(s: ForemanState, ticks: seq<(real, real)>)
    requires 0.0 <= s.needlePosition <= 1.0
    requires forall i :: 0 <= i < |ticks| ==> ticks[i].1 == 0.0
    ensures ForemanRun(s, ticks) == s
    decreases |ticks|
  {
    if ticks != [] {
      ForemanCalmRun(s, ticks[..|ticks| - 1]);
      ForemanStill(s, ticks[|ticks| - 1].0);
    }
  }

  /** With multiplier 0 and nothing held, a reset needle stays at 0.5 whatever the samples, and succeeds. */
  lemma {:induction false} ForemanNoDriftRun(s: ForemanState, ticks: seq<(real, real)>)
    requires s.needlePosition == 0.5 && s.driftMultiplier == 0.0
    ensures ForemanRun(s, ticks) == s
    ensures ForemanChecked(ForemanRun(s, ticks)).success
    decreases |ticks|
  {
    if ticks != [] {
      ForemanNoDriftRun(s, ticks[..|ticks| - 1]);
      var last := ticks[|ticks| - 1];
      assert Drift(last.1, 0.0, last.0) == 0.0;
    }
  }
}

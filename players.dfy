/**
 * The four player objects.  Each keeps its fields and updates them in place;
 * `State` reads the fields back as the record of module Mechanics, and every
 * method is proved to perform that module's transition on it.
 */
module Players {
  import opened Options
  import opened Config
  import opened Input
  import opened Mechanics

  /** Player 1: keep the quality bar up by holding or mashing either control. */
  class Builder {
    var success: bool
    var qualityBar: real
    var decayRate: real

    function State(): BuilderState
      reads this
    {
      BuilderState(qualityBar, decayRate, success)
    }

    constructor ()
      ensures State() == BuilderInit
    {
      success, qualityBar, decayRate := false, 0.0, 0.5;
    }

    method Reset()
      modifies this
      ensures State() == BuilderReset(old(State()))
    {
      success := false;
      qualityBar := 0.5;
    }

    method SetDifficulty(decayRate: real)
      modifies this
      ensures State() == BuilderConfigure(old(State()), decayRate)
    {
      this.decayRate := decayRate;
    }

    method Update(dt: real, input: P1Input)
      modifies this
      ensures State() == BuilderUpdate(old(State()), dt, input.any)
      ensures 0.0 <= qualityBar <= 1.0
    {
      qualityBar := qualityBar - decayRate * dt;
      if input.any {
        qualityBar := qualityBar + BuilderFillRate * dt;
      }
      qualityBar := Clamp01(qualityBar);
    }

    method CheckSuccess() returns (r: bool)
      modifies this
      ensures State() == BuilderChecked(old(State()))
      ensures r == success && (r <==> qualityBar >= BuilderQualityLine)
    {
      success := qualityBar >= BuilderQualityLine;
      r := success;
    }
  }

  /** Player 2: press once while the bouncing cursor is inside the zone. */
  class Wrapper {
    var success: bool
    var cursorPosition: real
    var cursorDirection: int
    var zoneSize: real
    var hasPressed: bool
    var pressPosition: Option<real>

    function State(): WrapperState
      reads this
    {
      WrapperState(cursorPosition, cursorDirection, zoneSize, hasPressed, pressPosition, success)
    }

    constructor ()
      ensures State() == WrapperInit
    {
      success := false;
      cursorPosition, cursorDirection := 0.0, 1;
      zoneSize := 0.3;
      hasPressed, pressPosition := false, None;
    }

    method Reset()
      modifies this
      ensures State() == WrapperReset(old(State()))
    {
      success := false;
      cursorPosition := 0.0;
      hasPressed := false;
      pressPosition := None;
    }

    method SetDifficulty(zoneSize: real)
      modifies this
      ensures State() == WrapperConfigure(old(State()), zoneSize)
    {
      this.zoneSize := zoneSize;
    }

    method Update(dt: real, input: P2Input)
      modifies this
      ensures State() == WrapperUpdate(old(State()), dt, input.pressed)
      ensures old(WrapperValid(State())) ==> WrapperValid(State())
    {
      if !hasPressed {
        cursorPosition := cursorPosition + CursorSpeed * cursorDirection as real * dt;
        if cursorPosition >= 1.0 {
          cursorPosition := 1.0;
          cursorDirection := -1;
        } else if cursorPosition <= 0.0 {
          cursorPosition := 0.0;
          cursorDirection := 1;
        }
        if input.pressed {
          hasPressed := true;
          pressPosition := Some(cursorPosition);
        }
      }
    }

    method CheckSuccess() returns (r: bool)
      modifies this
      ensures State() == WrapperChecked(old(State()))
      ensures r == success
      ensures r <==> pressPosition.Some? && InZone(pressPosition.value, zoneSize)
    {
      if pressPosition == None {
        success := false;
      } else {
        var zoneStart := ZoneCenter - zoneSize / 2.0;
        var zoneEnd := ZoneCenter + zoneSize / 2.0;
        success := zoneStart <= pressPosition.value <= zoneEnd;
      }
      r := success;
    }
  }

  /** Player 3: enter the arrow sequence; a wrong arrow restarts it. */
  class Decorator {
    var success: bool
    var arrowSequence: seq<Arrow>
    var currentIndex: nat
    var completed: bool

    function State(): DecoratorState
      reads this
    {
      DecoratorState(arrowSequence, currentIndex, completed, success)
    }

    constructor ()
      ensures State() == DecoratorInit
    {
      success := false;
      arrowSequence := [];
      currentIndex := 0;
      completed := false;
    }

    method Reset()
      modifies this
      ensures State() == DecoratorReset(old(State()))
    {
      success := false;
      currentIndex := 0;
      completed := false;
    }

    /** Draws `arrowCount` directions from the random source `pick`. */
    method SetDifficulty(arrowCount: nat, pick: nat -> Arrow)
      modifies this
      ensures State() == DecoratorConfigure(old(State()), arrowCount, pick)
    {
      arrowSequence := seq(arrowCount, i requires 0 <= i < arrowCount => pick(i));
    }

    method Update(dt: real, input: P3Input)
      modifies this
      ensures State() == DecoratorUpdate(old(State()), input.keysPressed)
    {
      if completed {
        return;
      }
      if currentIndex >= |arrowSequence| {
        completed := true;
        success := true;
        return;
      }
      var expected := arrowSequence[currentIndex];
      var arrowsPressed := input.keysPressed;
      if expected in arrowsPressed {
        currentIndex := currentIndex + 1;
      } else if |arrowsPressed| > 0 {
        currentIndex := 0;
      }
    }

    /** The flag set on completion; false if the sequence was not finished. */
    method CheckSuccess() returns (r: bool)
      ensures r == success
    {
      r := success;
    }
  }

  /** Player 4: keep the drifting needle near the centre. */
  class Foreman {
    var success: bool
    var needlePosition: real
    var driftMultiplier: real

    function State(): ForemanState
      reads this
    {
      ForemanState(needlePosition, driftMultiplier, success)
    }

    constructor ()
      ensures State() == ForemanInit
    {
      success := false;
      needlePosition := 0.5;
      driftMultiplier := 1.0;
    }

    method Reset()
      modifies this
      ensures State() == ForemanReset(old(State()))
    {
      success := false;
      needlePosition := 0.5;
    }

    method SetDifficulty(tier: Tier)
      modifies this
      ensures State() == ForemanConfigure(old(State()), tier)
    {
      if tier == Nightmare {
        driftMultiplier := NightmareDriftMultiplier;
      } else if tier == Standard {
        driftMultiplier := StandardDriftMultiplier;
      } else {
        driftMultiplier := EasyDriftMultiplier;
      }
    }

    /** `sample` is the uniform draw from [-1, 1] that drives this tick's drift. */
    method Update(dt: real, input: P4Input, sample: real)
      modifies this
      ensures State() == ForemanUpdate(old(State()), dt, sample, input.left, input.right)
      ensures 0.0 <= needlePosition <= 1.0
    {
      var drift := Drift(sample, driftMultiplier, dt);
      var position := needlePosition + drift;
      if input.left {
        position := position - ControlSpeed * dt;
      }
      if input.right {
        position := position + ControlSpeed * dt;
      }
      needlePosition := Clamp01(position);
    }

    method CheckSuccess() returns (r: bool)
      modifies this
      ensures State() == ForemanChecked(old(State()))
      ensures r == success && (r <==> Abs(needlePosition - 0.5) < 0.3)
    {
      success := Abs(needlePosition - 0.5) < 0.3;
      r := success;
    }
  }
}

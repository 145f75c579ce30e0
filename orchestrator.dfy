/**
 * The game object.  It owns the four player objects and updates its own
 * fields step by step; `Model` reads the whole of it back as a Round.Model,
 * and every method is proved to perform the corresponding transition of
 * module Round, so the properties proved there hold of the object.
 */
module Orchestrator {
  import opened Options
  import opened Config
  import opened Input
  import opened Players
  import opened Mechanics
  import Round

  class Game {
    var state: GameState
    var currentOrder: Option<Order>
    var currentTier: Option<Tier>
    var roundNumber: nat
    var score: nat
    var stateTimer: real
    var roundResults: Option<Round.RoundResult>
    /** Whether a sound sink is attached. */
    const audio: bool
    /** The sound requests made so far, oldest first. */
    var sounds: seq<Round.SoundRequest>
    /** The looping effects the sound sink is playing. */
    var looping: set<Round.Sfx>
    const builder: Builder
    const wrapper: Wrapper
    const decorator: Decorator
    const foreman: Foreman

    function Model(): Round.Model
      reads this, builder, wrapper, decorator, foreman
    {
      Round.Model(state, stateTimer, roundNumber, score, currentOrder, currentTier,
                  builder.State(), wrapper.State(), decorator.State(), foreman.State(),
                  roundResults, audio, sounds, looping)
    }

    constructor (audio: bool)
      ensures Model() == Round.Init(audio)
      ensures fresh(builder) && fresh(wrapper) && fresh(decorator) && fresh(foreman)
    {
      state := Menu;
      currentOrder, currentTier := None, None;
      roundNumber, score := 0, 0;
      stateTimer := 0.0;
      builder := new Builder();
      wrapper := new Wrapper();
      decorator := new Decorator();
      foreman := new Foreman();
      roundResults := None;
      this.audio := audio;
      sounds := if audio then [Round.StateMusic(Round.MenuTrack)] else [];
      looping := {};
    }

    /** Sends `s` to the sound sink, if there is one. */
    method Request(s: Round.SoundRequest)
      modifies this
      ensures Model() == Round.Emit(old(Model()), s)
    {
      if audio {
        sounds := sounds + [s];
      }
    }

    /** `pick` is the index of the randomly chosen order within its tier. */
    method StartNewRound(pick: nat)
      requires pick < OrdersPerTier
      modifies this
      ensures Model() == Round.StartNewRound(old(Model()), pick)
    {
      ghost var m0 := Model();
      roundNumber := roundNumber + 1;
      var tier;
      if roundNumber <= 3 {
        tier := Easy;
      } else if roundNumber <= 7 {
        tier := Standard;
      } else {
        tier := Nightmare;
      }
      currentTier := Some(tier);
      currentOrder := Some(Orders(tier)[pick]);
      state := Briefing;
      stateTimer := BriefingDuration as real;
      assert tier == Round.TierForRound(roundNumber);
      ghost var m1 := m0.(round := roundNumber, tier := Some(tier), order := currentOrder,
                          state := Briefing, timer := BriefingDuration as real);
      assert Model() == m1;
      Request(Round.StateMusic(Round.BriefingTrack));
      if tier == Nightmare {
        Request(Round.Effect(Round.Siren));
      }
    }

    /** `arrows` is the random source of the Decorator's sequence. */
    method StartActionPhase(arrows: nat -> Arrow)
      requires currentOrder.Some? && currentTier.Some?
      modifies this, builder, wrapper, decorator, foreman
      ensures Model() == Round.StartActionPhase(old(Model()), arrows)
    {
      var o := currentOrder.value;
      state := Playing;
      stateTimer := o.timeLimit as real;
      builder.Reset();
      wrapper.Reset();
      decorator.Reset();
      foreman.Reset();
      builder.SetDifficulty(o.decayRate);
      wrapper.SetDifficulty(o.zoneSize);
      decorator.SetDifficulty(o.arrows, arrows);
      foreman.SetDifficulty(currentTier.value);
      Request(Round.StateMusic(Round.PlayingTrack));
      Request(Round.Effect(Round.Whoosh));
    }

    method EndActionPhase()
      requires currentOrder.Some?
      modifies this, builder, wrapper, foreman
      ensures Model() == Round.EndActionPhase(old(Model()))
    {
      ghost var m0 := Model();
      state := Reveal;
      stateTimer := RevealDuration as real;
      var successes := CheckPlayers();
      roundResults := Some(Round.RoundResult(currentOrder.value.Name(), successes));
      var roundScore := Round.CountTrue(successes);
      score := score + roundScore;
      assert Model() == Round.Evaluate(m0);
      PlayRevealCues(roundScore);
    }

    /** Asks each player, in order, whether it succeeded. */
    method CheckPlayers() returns (successes: seq<bool>)
      modifies builder, wrapper, foreman
      ensures successes == Round.Outcomes(old(Model()))
      ensures builder.State() == BuilderChecked(old(builder.State()))
      ensures wrapper.State() == WrapperChecked(old(wrapper.State()))
      ensures foreman.State() == ForemanChecked(old(foreman.State()))
    {
      var builderSuccess := builder.CheckSuccess();
      var wrapperSuccess := wrapper.CheckSuccess();
      var decoratorSuccess := decorator.CheckSuccess();
      var foremanSuccess := foreman.CheckSuccess();
      successes := [builderSuccess, wrapperSuccess, decoratorSuccess, foremanSuccess];
    }

    method PlayRevealCues(roundScore: nat)
      modifies this
      ensures Model() == Round.RevealAudio(old(Model()), roundScore)
    {
      if audio {
        sounds := sounds + [Round.StopLoop(Round.Countdown), Round.StateMusic(Round.RevealTrack),
                            Round.Effect(Round.RevealCue(roundScore))];
        looping := looping - {Round.Countdown};
      }
    }

    /** One frame: `input` is this frame's input snapshot and `d` the random draws the frame may use. */
    method Update(dt: real, input: FrameInput, d: Round.Draws)
      requires Round.Valid(Model()) && d.order < OrdersPerTier
      modifies this, builder, wrapper, decorator, foreman
      ensures Model() == Round.Step(old(Model()), dt, input, d)
      ensures Round.Valid(Model())
    {
      if state == Menu {
        if input.confirm {
          Request(Round.Effect(Round.ButtonPress));
          StartNewRound(d.order);
        }
      } else if state == Briefing {
        UpdateBriefing(dt, d.arrows);
      } else if state == Playing {
        UpdatePlaying(dt, input, d.drift);
      } else if state == Reveal {
        UpdateReveal(dt, input, d.order);
      }
    }

    method UpdateBriefing(dt: real, arrows: nat -> Arrow)
      requires Round.Valid(Model()) && state == Briefing
      modifies this, builder, wrapper, decorator, foreman
      ensures Model() == Round.BriefingStep(old(Model()), dt, arrows)
    {
      stateTimer := stateTimer - dt;
      if stateTimer <= 0.0 {
        StartActionPhase(arrows);
      }
    }

    method UpdatePlaying(dt: real, input: FrameInput, drift: real)
      requires Round.Valid(Model()) && state == Playing
      modifies this, builder, wrapper, decorator, foreman
      ensures Model() == Round.PlayingStep(old(Model()), dt, input, drift)
    {
      stateTimer := stateTimer - dt;
      CueCountdown();
      UpdatePlayers(dt, input, drift);
      if stateTimer <= 0.0 {
        EndActionPhase();
      }
    }

    /** Starts the countdown loop when the timer is low and it is not looping yet. */
    method CueCountdown()
      modifies this
      ensures Model() == Round.CountdownCue(old(Model()))
    {
      if audio && stateTimer <= 5.0 && stateTimer > 0.0 && Round.Countdown !in looping {
        sounds := sounds + [Round.StartLoop(Round.Countdown)];
        looping := looping + {Round.Countdown};
      }
    }

    /** Each player reads its share of the frame's input. */
    method UpdatePlayers(dt: real, input: FrameInput, drift: real)
      modifies builder, wrapper, decorator, foreman
      ensures Model() == Round.UpdateMechanics(old(Model()), dt, input, drift)
    {
      builder.Update(dt, input.p1);
      wrapper.Update(dt, input.p2);
      decorator.Update(dt, input.p3);
      foreman.Update(dt, input.p4, drift);
    }

    method UpdateReveal(dt: real, input: FrameInput, pick: nat)
      requires Round.Valid(Model()) && state == Reveal && pick < OrdersPerTier
      modifies this, builder, wrapper, decorator, foreman
      ensures Model() == Round.RevealStep(old(Model()), dt, input, pick)
    {
      stateTimer := stateTimer - dt;
      if stateTimer <= 0.0 && input.confirm {
        Request(Round.Effect(Round.ButtonPress));
        StartNewRound(pick);
      }
    }
  }
}

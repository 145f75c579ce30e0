/**
 * The round state machine as a value.  A `Model` is everything the game
 * object holds; `Step` is one call of the game's `update`, with every random
 * draw passed in.  Sound calls are recorded as requests appended to
 * `sounds`; `looping` stands for the set of looping effects the sound sink
 * is playing.  Class Orchestrator.Game is proved to perform these steps.
 */
module Round {
  import opened Options
  import opened Config
  import opened Input
  import opened Mechanics

  /** Background tracks, keyed by game state. */
  datatype Track = MenuTrack | BriefingTrack | PlayingTrack | RevealTrack

  /** The sound effects the round logic asks for. */
  datatype Sfx = ButtonPress | Siren | Whoosh | Countdown | Perfect | SuccessCue | Fail

  datatype SoundRequest =
    | StateMusic(track: Track)
    | Effect(sfx: Sfx)
    | StartLoop(loopSfx: Sfx)
    | StopLoop(loopSfx: Sfx)

  /** The reveal: the toy's name and the four outcomes, Builder, Wrapper, Decorator, Foreman. */
  datatype RoundResult = RoundResult(toyName: string, successes: seq<bool>)

  /** The random draws one tick may use: an order index, the arrow source, the drift sample. */
  datatype Draws = Draws(order: nat, arrows: nat -> Arrow, drift: real)

  datatype Model = Model(
    state: GameState,
    timer: real,
    round: nat,
    score: nat,
    order: Option<Order>,
    tier: Option<Tier>,
    builder: BuilderState,
    wrapper: WrapperState,
    decorator: DecoratorState,
    foreman: ForemanState,
    results: Option<RoundResult>,
    audio: bool,                 // a sound sink is attached
    sounds: seq<SoundRequest>,
    looping: set<Sfx>)

  predicate InRound(s: GameState) {
    s == Briefing || s == Playing || s == Reveal
  }

  /**
   * The invariant of a running game: a round in progress has its tier and
   * order, each round adds at most 4 points, the reveal has four outcomes,
   * and each mechanic's own bounds hold.
   */
  predicate Valid(m: Model) {
    (m.state == Menu ==> m.round == 0 && m.score == 0) &&
    (InRound(m.state) ==>
      m.round >= 1 && m.tier == Some(TierForRound(m.round)) &&
      m.order.Some? && m.order.value in Orders(m.tier.value)) &&
    (m.state == Briefing || m.state == Playing ==> m.score <= 4 * (m.round - 1)) &&
    m.score <= 4 * m.round &&
    (m.state == Reveal ==> m.results.Some? && |m.results.value.successes| == 4) &&
    (m.state == Playing ==> m.decorator.currentIndex <= |m.decorator.arrowSequence|) &&
    (m.decorator.success ==> m.decorator.completed) &&
    0.0 <= m.builder.qualityBar <= 1.0 &&
    WrapperValid(m.wrapper) &&
    0.0 <= m.foreman.needlePosition <= 1.0
  }

  /** A new game: the menu, fresh mechanics, and the menu music if there is sound. */
  function Init(audio: bool): (m: Model)
    ensures Valid(m) && m.state == Menu && m.round == 0 && m.score == 0
    ensures m.sounds == (if audio then [StateMusic(MenuTrack)] else []) && m.looping == {}
  {
    Model(Menu, 0.0, 0, 0, None, None, BuilderInit, WrapperInit, DecoratorInit, ForemanInit,
          None, audio, if audio then [StateMusic(MenuTrack)] else [], {})
  }

  /** A sound call: recorded only when a sound sink is attached; nothing else changes. */
  function Emit(m: Model, s: SoundRequest): (r: Model)
    ensures !m.audio ==> r == m
    ensures m.audio ==> r.sounds == m.sounds + [s]
    ensures r.(sounds := m.sounds) == m
  {
    if m.audio then m.(sounds := m.sounds + [s]) else m
  }

  /** Rounds 1-3 are EASY, 4-7 STANDARD, 8 and later NIGHTMARE. */
  function TierForRound(n: int): (t: Tier)
    ensures t == Easy <==> n <= 3
    ensures t == Standard <==> 4 <= n <= 7
    ensures t == Nightmare <==> n >= 8
  {
    if n <= 3 then Easy else if n <= 7 then Standard else Nightmare
  }

  /** Later rounds are never easier. */
  lemma TierMonotone(n: int, k: int)
    requires n <= k
    ensures TierForRound(n).Value() <= TierForRound(k).Value()
  {
  }

  /** The next round: the counter goes up by one, its tier's order `pick` is chosen, briefing begins. */
  function StartNewRound(m: Model, pick: nat): (r: Model)
    requires pick < OrdersPerTier
    ensures r.round == m.round + 1 && r.state == Briefing
    ensures r.timer == BriefingDuration as real
    ensures r.tier == Some(TierForRound(r.round))
    ensures r.order == Some(Orders(TierForRound(r.round))[pick])
    ensures r.score == m.score && r.results == m.results
    ensures r.builder == m.builder && r.wrapper == m.wrapper
    ensures r.decorator == m.decorator && r.foreman == m.foreman
    ensures r.looping == m.looping && r.audio == m.audio
    ensures r.sounds == m.sounds +
      (if !m.audio then []
       else [StateMusic(BriefingTrack)] + (if TierForRound(r.round) == Nightmare then [Effect(Siren)] else []))
  {
    var n := m.round + 1;
    var tier := TierForRound(n);
    var m1 := m.(round := n, tier := Some(tier), order := Some(Orders(tier)[pick]),
                 state := Briefing, timer := BriefingDuration as real);
    var m2 := Emit(m1, StateMusic(BriefingTrack));
    if tier == Nightmare then Emit(m2, Effect(Siren)) else m2
  }

  /** The action phase: timer from the order, all four mechanics reset then configured. */
  function StartActionPhase(m: Model, arrows: nat -> Arrow): (r: Model)
    requires m.order.Some? && m.tier.Some?
    ensures r.state == Playing && r.timer == m.order.value.timeLimit as real
    ensures r.round == m.round && r.score == m.score && r.order == m.order && r.tier == m.tier
    ensures r.builder.qualityBar == 0.5 && r.builder.decayRate == m.order.value.decayRate && !r.builder.success
    ensures !r.wrapper.hasPressed && r.wrapper.cursorPosition == 0.0 && r.wrapper.zoneSize == m.order.value.zoneSize
    ensures r.decorator.currentIndex == 0 && !r.decorator.completed && !r.decorator.success
    ensures |r.decorator.arrowSequence| == m.order.value.arrows
    ensures forall i :: 0 <= i < m.order.value.arrows ==> r.decorator.arrowSequence[i] == arrows(i)
    ensures !r.wrapper.success && r.wrapper.cursorDirection == m.wrapper.cursorDirection
    ensures r.foreman.needlePosition == 0.5 && !r.foreman.success
    ensures r.foreman.driftMultiplier == (match m.tier.value
                                          case Easy => 1.0 case Standard => 1.5 case Nightmare => 2.5)
    ensures r.sounds == m.sounds + (if m.audio then [StateMusic(PlayingTrack), Effect(Whoosh)] else [])
  {
    var o := m.order.value;
    var m1 := m.(state := Playing, timer := o.timeLimit as real,
                 builder := BuilderConfigure(BuilderReset(m.builder), o.decayRate),
                 wrapper := WrapperConfigure(WrapperReset(m.wrapper), o.zoneSize),
                 decorator := DecoratorConfigure(DecoratorReset(m.decorator), o.arrows, arrows),
                 foreman := ForemanConfigure(ForemanReset(m.foreman), m.tier.value));
    Emit(Emit(m1, StateMusic(PlayingTrack)), Effect(Whoosh))
  }

  /** Number of true entries. */
  function CountTrue(s: seq<bool>): (n: nat)
    ensures n <= |s|
    ensures n == 0 <==> forall i :: 0 <= i < |s| ==> !s[i]
    ensures n == |s| <==> forall i :: 0 <= i < |s| ==> s[i]
    decreases |s|
  {
    if s == [] then 0 else CountTrue(s[..|s| - 1]) + (if s[|s| - 1] then 1 else 0)
  }

  function Bit(b: bool): nat {
    if b then 1 else 0
  }

  /** The count of four outcomes is the sum of their bits. */
  lemma CountFour(a: bool, b: bool, c: bool, d: bool)
    ensures CountTrue([a, b, c, d]) == Bit(a) + Bit(b) + Bit(c) + Bit(d)
  {
    assert [a, b, c, d][..3] == [a, b, c];
    assert [a, b, c][..2] == [a, b];
    assert [a, b][..1] == [a];
    assert [a][..0] == [];
    assert CountTrue([a]) == Bit(a);
    assert CountTrue([a, b]) == Bit(a) + Bit(b);
    assert CountTrue([a, b, c]) == Bit(a) + Bit(b) + Bit(c);
  }

  /** The reveal cue for a round score. */
  function RevealCue(roundScore: nat): (r: Sfx)
    ensures r == Perfect <==> roundScore == 4
    ensures r == SuccessCue <==> roundScore == 2 || roundScore == 3 || roundScore > 4
    ensures r == Fail <==> roundScore <= 1
  {
    if roundScore == 4 then Perfect else if roundScore >= 2 then SuccessCue else Fail
  }

  /** The four checks, in the order Builder, Wrapper, Decorator, Foreman. */
  function Outcomes(m: Model): (r: seq<bool>)
    ensures |r| == 4
    ensures r[0] <==> m.builder.qualityBar >= BuilderQualityLine
    ensures r[1] <==> m.wrapper.pressPosition.Some? && InZone(m.wrapper.pressPosition.value, m.wrapper.zoneSize)
    ensures r[2] == m.decorator.success
    ensures r[3] <==> 0.2 < m.foreman.needlePosition < 0.8
  {
    [BuilderChecked(m.builder).success, WrapperChecked(m.wrapper).success,
     m.decorator.success, ForemanChecked(m.foreman).success]
  }

  /** The evaluation: the four players checked in order, the results recorded, the round scored. */
  function Evaluate(m: Model): (r: Model)
    requires m.order.Some?
    ensures r.state == Reveal && r.timer == RevealDuration as real
    ensures r.results == Some(RoundResult(m.order.value.Name(), Outcomes(m)))
    ensures r.score == m.score + CountTrue(Outcomes(m)) && r.score <= m.score + 4
    ensures r.round == m.round && r.order == m.order && r.tier == m.tier && r.decorator == m.decorator
    ensures r.sounds == m.sounds && r.looping == m.looping && r.audio == m.audio
  {
    var successes := Outcomes(m);
    m.(state := Reveal, timer := RevealDuration as real,
       builder := BuilderChecked(m.builder), wrapper := WrapperChecked(m.wrapper),
       foreman := ForemanChecked(m.foreman),
       results := Some(RoundResult(m.order.value.Name(), successes)),
       score := m.score + CountTrue(successes))
  }

  /** The reveal's sound requests: the countdown loop stops, the reveal music starts, the cue plays. */
  function RevealAudio(m: Model, roundScore: nat): (r: Model)
    ensures !m.audio ==> r == m
    ensures m.audio ==>
      (Countdown !in r.looping && |r.sounds| == |m.sounds| + 3 &&
       r.sounds[..|m.sounds|] == m.sounds && r.sounds[|r.sounds| - 1] == Effect(RevealCue(roundScore)))
    ensures r.(sounds := m.sounds, looping := m.looping) == m
  {
    if m.audio then
      m.(sounds := m.sounds + [StopLoop(Countdown), StateMusic(RevealTrack), Effect(RevealCue(roundScore))],
         looping := m.looping - {Countdown})
    else m
  }

  /** The end of the action phase: evaluate the four players in order and score the round. */
  function EndActionPhase(m: Model): (r: Model)
    requires m.order.Some?
    ensures r.state == Reveal && r.round == m.round && r.tier == m.tier
    ensures m.score <= r.score <= m.score + 4
    ensures r.results == Some(RoundResult(m.order.value.Name(), Outcomes(m)))
  {
    RevealAudio(Evaluate(m), CountTrue(Outcomes(m)))
  }

  /** The countdown loop starts once the timer is in (0, 5] and it is not already looping. */
  function CountdownCue(m: Model): (r: Model)
    ensures Countdown in m.looping || !m.audio || !(0.0 < m.timer <= 5.0) ==> r == m
    ensures m.audio && 0.0 < m.timer <= 5.0 ==> Countdown in r.looping
    ensures r != m ==> r.sounds == m.sounds + [StartLoop(Countdown)]
    ensures r.(sounds := m.sounds, looping := m.looping) == m
  {
    if m.audio && 0.0 < m.timer <= 5.0 && Countdown !in m.looping then
      m.(sounds := m.sounds + [StartLoop(Countdown)], looping := m.looping + {Countdown})
    else m
  }

  /** One tick of all four mechanics. */
  function UpdateMechanics(m: Model, dt: real, input: FrameInput, drift: real): (r: Model)
    ensures r.(builder := m.builder, wrapper := m.wrapper, decorator := m.decorator, foreman := m.foreman) == m
    ensures 0.0 <= r.builder.qualityBar <= 1.0 && 0.0 <= r.foreman.needlePosition <= 1.0
    ensures WrapperValid(m.wrapper) ==> WrapperValid(r.wrapper)
  {
    m.(builder := BuilderUpdate(m.builder, dt, input.p1.any),
       wrapper := WrapperUpdate(m.wrapper, dt, input.p2.pressed),
       decorator := DecoratorUpdate(m.decorator, input.p3.keysPressed),
       foreman := ForemanUpdate(m.foreman, dt, drift, input.p4.left, input.p4.right))
  }

  /** MENU: wait for confirm; the timer does not run. */
  function MenuStep(m: Model, input: FrameInput, pick: nat): (r: Model)
    requires Valid(m) && m.state == Menu && pick < OrdersPerTier
    ensures Valid(r)
  {
    if input.confirm then StartNewRound(Emit(m, Effect(ButtonPress)), pick) else m
  }

  /** BRIEFING: count down, then start the action phase. */
  function BriefingStep(m: Model, dt: real, arrows: nat -> Arrow): (r: Model)
    requires Valid(m) && m.state == Briefing
    ensures Valid(r)
  {
    var m1 := m.(timer := m.timer - dt);
    if m1.timer <= 0.0 then StartActionPhase(m1, arrows) else m1
  }

  /** PLAYING: count down, cue the countdown loop, update the mechanics, and end the phase when time is up. */
  function PlayingStep(m: Model, dt: real, input: FrameInput, drift: real): (r: Model)
    requires Valid(m) && m.state == Playing
    ensures Valid(r)
  {
    var m1 := UpdateMechanics(CountdownCue(m.(timer := m.timer - dt)), dt, input, drift);
    if m1.timer <= 0.0 then EndActionPhase(m1) else m1
  }

  /** REVEAL: count down; confirm counts only once the timer is out. */
  function RevealStep(m: Model, dt: real, input: FrameInput, pick: nat): (r: Model)
    requires Valid(m) && m.state == Reveal && pick < OrdersPerTier
    ensures Valid(r)
  {
    var m1 := m.(timer := m.timer - dt);
    if m1.timer <= 0.0 && input.confirm then StartNewRound(Emit(m1, Effect(ButtonPress)), pick)
    else m1
  }

  /** One call of the game's update with frame length `dt`. */
  function Step(m: Model, dt: real, input: FrameInput, d: Draws): (r: Model)
    requires Valid(m) && d.order < OrdersPerTier
    ensures Valid(r)
  {
    match m.state
    case Menu => MenuStep(m, input, d.order)
    case Briefing => BriefingStep(m, dt, d.arrows)
    case Playing => PlayingStep(m, dt, input, d.drift)
    case Reveal => RevealStep(m, dt, input, d.order)
    case GameOver => m
  }

  // ------------------------------------------------------------ properties

  /** In the menu nothing happens, the timer included, until confirm is pressed. */
  lemma MenuWaits(m: Model, dt: real, input: FrameInput, d: Draws)
    requires Valid(m) && d.order < OrdersPerTier && m.state == Menu
    ensures !input.confirm ==> Step(m, dt, input, d) == m
    ensures input.confirm ==>
      var r := Step(m, dt, input, d);
      r.state == Briefing && r.round == 1 && r.tier == Some(Easy) &&
      r.timer == BriefingDuration as real && r.order.value in Orders(Easy)
  {
  }

  /** The briefing counts down by dt; at or below zero the action phase starts with fresh, configured mechanics. */
  lemma BriefingCountsDown(m: Model, dt: real, input: FrameInput, d: Draws)
    requires Valid(m) && d.order < OrdersPerTier && m.state == Briefing
    ensures var r := Step(m, dt, input, d);
      (m.timer - dt > 0.0 ==> r == m.(timer := m.timer - dt)) &&
      (m.timer - dt <= 0.0 ==>
        var o := m.order.value;
        r.state == Playing && r.timer == o.timeLimit as real && r.round == m.round && r.score == m.score &&
        r.builder.qualityBar == 0.5 && r.builder.decayRate == o.decayRate && !r.builder.success &&
        r.wrapper.cursorPosition == 0.0 && !r.wrapper.hasPressed && r.wrapper.zoneSize == o.zoneSize &&
        r.decorator.currentIndex == 0 && !r.decorator.completed &&
        |r.decorator.arrowSequence| == o.arrows &&
        (forall i :: 0 <= i < o.arrows ==> r.decorator.arrowSequence[i] == d.arrows(i)) &&
        r.foreman.needlePosition == 0.5 &&
        r.foreman.driftMultiplier == (match m.tier.value
                                      case Easy => 1.0 case Standard => 1.5 case Nightmare => 2.5))
  {
  }

  /**
   * While playing, every tick, the last one included, counts the timer down
   * and updates all four mechanics; only then, if the timer is out, are they
   * evaluated and the round scored.
   */
  lemma PlayingTick(m: Model, dt: real, input: FrameInput, d: Draws)
    requires Valid(m) && d.order < OrdersPerTier && m.state == Playing
    ensures var r := Step(m, dt, input, d);
      var b := BuilderUpdate(m.builder, dt, input.p1.any);
      var w := WrapperUpdate(m.wrapper, dt, input.p2.pressed);
      var dc := DecoratorUpdate(m.decorator, input.p3.keysPressed);
      var f := ForemanUpdate(m.foreman, dt, d.drift, input.p4.left, input.p4.right);
      var successes := [BuilderChecked(b).success, WrapperChecked(w).success, dc.success, ForemanChecked(f).success];
      (m.timer - dt > 0.0 ==>
        r.state == Playing && r.timer == m.timer - dt && r.score == m.score &&
        r.builder == b && r.wrapper == w && r.decorator == dc && r.foreman == f) &&
      (m.timer - dt <= 0.0 ==>
        r.state == Reveal && r.timer == RevealDuration as real &&
        r.results == Some(RoundResult(m.order.value.Name(), successes)) &&
        r.score == m.score + CountTrue(successes) &&
        r.builder == BuilderChecked(b) && r.wrapper == WrapperChecked(w) &&
        r.decorator == dc && r.foreman == ForemanChecked(f))
  {
  }

  /** Each round adds between 0 and 4 points: the number of players who succeeded. */
  lemma RoundScoreBounds(m: Model)
    requires m.order.Some?
    ensures var r := EndActionPhase(m);
      r.state == Reveal && r.timer == RevealDuration as real &&
      m.score <= r.score <= m.score + 4 &&
      r.results == Some(RoundResult(m.order.value.Name(), Outcomes(m))) &&
      (r.score == m.score + 4 <==> forall i :: 0 <= i < 4 ==> Outcomes(m)[i])
  {
  }

  /** The reveal ignores confirm until its timer has run out; then confirm starts the next round. */
  lemma RevealGate(m: Model, dt: real, input: FrameInput, d: Draws)
    requires Valid(m) && d.order < OrdersPerTier && m.state == Reveal
    ensures var r := Step(m, dt, input, d);
      (m.timer - dt > 0.0 || !input.confirm ==> r == m.(timer := m.timer - dt)) &&
      (m.timer - dt <= 0.0 && input.confirm ==>
        r.state == Briefing && r.round == m.round + 1 && r.score == m.score)
  {
  }

  /** What a tick keeps: score up, at most one more round, menu not re-entered, the log extended. */
  predicate Advances(m: Model, r: Model) {
    r.score >= m.score &&
    (r.round == m.round || r.round == m.round + 1) &&
    (m.state != Menu ==> r.state != Menu) &&
    (r.round == m.round + 1 <==> r.state == Briefing && m.state != Briefing) &&
    |r.sounds| >= |m.sounds| && r.sounds[..|m.sounds|] == m.sounds
  }

  lemma MenuAdvances(m: Model, input: FrameInput, pick: nat)
    requires Valid(m) && m.state == Menu && pick < OrdersPerTier
    ensures Advances(m, MenuStep(m, input, pick))
  {
  }

  lemma BriefingAdvances(m: Model, dt: real, arrows: nat -> Arrow)
    requires Valid(m) && m.state == Briefing
    ensures Advances(m, BriefingStep(m, dt, arrows))
  {
  }

  lemma PlayingAdvances(m: Model, dt: real, input: FrameInput, drift: real)
    requires Valid(m) && m.state == Playing
    ensures Advances(m, PlayingStep(m, dt, input, drift))
  {
  }

  lemma RevealAdvances(m: Model, dt: real, input: FrameInput, pick: nat)
    requires Valid(m) && m.state == Reveal && pick < OrdersPerTier
    ensures Advances(m, RevealStep(m, dt, input, pick))
  {
  }

  /** One tick never lowers the score, adds at most one round, and never goes back to the menu. */
  lemma StepMonotone(m: Model, dt: real, input: FrameInput, d: Draws)
    requires Valid(m) && d.order < OrdersPerTier
    ensures Advances(m, Step(m, dt, input, d))
  {
    match m.state
    case Menu => MenuAdvances(m, input, d.order);
    case Briefing => BriefingAdvances(m, dt, d.arrows);
    case Playing => PlayingAdvances(m, dt, input, d.drift);
    case Reveal => RevealAdvances(m, dt, input, d.order);
    case GameOver =>
  }

  /** The ticks of a session: frame length, input and draws of each. */
  datatype Tick = Tick(dt: real, input: FrameInput, draws: Draws)

  predicate DrawsOk(ticks: seq<Tick>) {
    forall i :: 0 <= i < |ticks| ==> ticks[i].draws.order < OrdersPerTier
  }

  function Run(m: Model, ticks: seq<Tick>): (r: Model)
    requires Valid(m) && DrawsOk(ticks)
    ensures Valid(r)
    decreases |ticks|
  {
    if ticks == [] then m
    else
      var last := ticks[|ticks| - 1];
      Step(Run(m, ticks[..|ticks| - 1]), last.dt, last.input, last.draws)
  }

  /** Over any session the score never decreases, rounds only go up, and the menu is never re-entered. */
  lemma {:induction false} RunMonotone(m: Model, ticks: seq<Tick>)
    requires Valid(m) && DrawsOk(ticks)
    ensures Run(m, ticks).score >= m.score
    ensures Run(m, ticks).round >= m.round
    ensures m.state != Menu ==> Run(m, ticks).state != Menu
    decreases |ticks|
  {
    if ticks != [] {
      var front := ticks[..|ticks| - 1];
      assert DrawsOk(front);
      RunMonotone(m, front);
      var last := ticks[|ticks| - 1];
      StepMonotone(Run(m, front), last.dt, last.input, last.draws);
    }
  }

  /** The sound log only grows. */
  lemma {:induction false} RunSoundsGrow(m: Model, ticks: seq<Tick>)
    requires Valid(m) && DrawsOk(ticks)
    ensures |Run(m, ticks).sounds| >= |m.sounds| && Run(m, ticks).sounds[..|m.sounds|] == m.sounds
    decreases |ticks|
  {
    if ticks != [] {
      var front := ticks[..|ticks| - 1];
      assert DrawsOk(front);
      RunSoundsGrow(m, front);
      var last := ticks[|ticks| - 1];
      StepMonotone(Run(m, front), last.dt, last.input, last.draws);
    }
  }

  /** The requests one tick adds to the log. */
  function NewSounds(m: Model, dt: real, input: FrameInput, d: Draws): seq<SoundRequest>
    requires Valid(m) && d.order < OrdersPerTier
  {
    StepMonotone(m, dt, input, d);
    Step(m, dt, input, d).sounds[|m.sounds|..]
  }

  /** The rules for the siren and the countdown loop, over the requests from `m` to `r`. */
  predicate CueRules(m: Model, r: Model, dt: real)
    requires |r.sounds| >= |m.sounds|
  {
    var added := r.sounds[|m.sounds|..];
    (Effect(Siren) in added <==> m.audio && r.round == m.round + 1 && r.tier == Some(Nightmare)) &&
    (StartLoop(Countdown) in added <==>
      m.audio && m.state == Playing && 0.0 < m.timer - dt <= 5.0 && Countdown !in m.looping)
  }

  /** The requests of a new round after a button press: the press, the briefing music, and the siren for NIGHTMARE. */
  lemma ConfirmedRoundCues(m: Model, pick: nat)
    requires pick < OrdersPerTier
    ensures var r := StartNewRound(Emit(m, Effect(ButtonPress)), pick);
      var added := if !m.audio then [] else
        [Effect(ButtonPress), StateMusic(BriefingTrack)] +
        (if r.tier == Some(Nightmare) then [Effect(Siren)] else []);
      r.sounds == m.sounds + added && r.round == m.round + 1 && r.audio == m.audio
  {
  }

  lemma MenuCues(m: Model, dt: real, input: FrameInput, pick: nat)
    requires Valid(m) && m.state == Menu && pick < OrdersPerTier
    ensures var r := MenuStep(m, input, pick); |r.sounds| >= |m.sounds| && CueRules(m, r, dt)
  {
    var r := MenuStep(m, input, pick);
    if input.confirm {
      ConfirmedRoundCues(m, pick);
    } else {
      assert r.sounds[|m.sounds|..] == [];
    }
  }

  lemma BriefingCues(m: Model, dt: real, arrows: nat -> Arrow)
    requires Valid(m) && m.state == Briefing
    ensures var r := BriefingStep(m, dt, arrows); |r.sounds| >= |m.sounds| && CueRules(m, r, dt)
  {
    var r := BriefingStep(m, dt, arrows);
    if m.timer - dt <= 0.0 && m.audio {
      assert r.sounds == m.sounds + [StateMusic(PlayingTrack), Effect(Whoosh)];
      assert r.sounds[|m.sounds|..] == [StateMusic(PlayingTrack), Effect(Whoosh)];
    }
  }

  /** Updating the mechanics leaves the round and its sounds alone. */
  lemma MechanicsKeepRound(c: Model, dt: real, input: FrameInput, drift: real)
    ensures var u := UpdateMechanics(c, dt, input, drift);
      u.sounds == c.sounds && u.looping == c.looping && u.audio == c.audio &&
      u.round == c.round && u.tier == c.tier && u.timer == c.timer && u.order == c.order
  {
  }

  /** The end of the action phase adds the countdown stop, the reveal music and the cue, and nothing else. */
  lemma EndCues(u: Model)
    requires u.order.Some?
    ensures var r := EndActionPhase(u);
      r.round == u.round && r.tier == u.tier && |r.sounds| >= |u.sounds| &&
      r.sounds[|u.sounds|..] == (if u.audio then
        [StopLoop(Countdown), StateMusic(RevealTrack), Effect(RevealCue(CountTrue(Outcomes(u))))] else [])
  {
  }

  lemma PlayingCues(m: Model, dt: real, input: FrameInput, drift: real)
    requires Valid(m) && m.state == Playing
    ensures var r := PlayingStep(m, dt, input, drift); |r.sounds| >= |m.sounds| && CueRules(m, r, dt)
  {
    var c := CountdownCue(m.(timer := m.timer - dt));
    var u := UpdateMechanics(c, dt, input, drift);
    MechanicsKeepRound(c, dt, input, drift);
    if m.timer - dt > 0.0 {
      RunningCues(m, dt, u);
    } else {
      EndingCues(m, dt, u);
    }
  }

  /** A playing tick with time left adds at most the countdown loop. */
  lemma RunningCues(m: Model, dt: real, u: Model)
    requires m.state == Playing && m.timer - dt > 0.0
    requires u.(builder := m.builder, wrapper := m.wrapper, decorator := m.decorator, foreman := m.foreman)
             == CountdownCue(m.(timer := m.timer - dt))
    ensures |u.sounds| >= |m.sounds| && CueRules(m, u, dt)
  {
    if m.audio && m.timer - dt <= 5.0 && Countdown !in m.looping {
      assert u.sounds[|m.sounds|..] == [StartLoop(Countdown)];
    } else {
      assert u.sounds[|m.sounds|..] == [];
    }
  }

  /** The tick that runs the timer out adds only the reveal's requests. */
  lemma EndingCues(m: Model, dt: real, u: Model)
    requires m.state == Playing && m.timer - dt <= 0.0 && u.order.Some?
    requires u.sounds == m.sounds && u.round == m.round && u.tier == m.tier && u.audio == m.audio
    ensures var r := EndActionPhase(u); |r.sounds| >= |m.sounds| && CueRules(m, r, dt)
  {
    EndCues(u);
  }

  lemma RevealCues(m: Model, dt: real, input: FrameInput, pick: nat)
    requires Valid(m) && m.state == Reveal && pick < OrdersPerTier
    ensures var r := RevealStep(m, dt, input, pick); |r.sounds| >= |m.sounds| && CueRules(m, r, dt)
  {
    if m.timer - dt <= 0.0 && input.confirm {
      RevealConfirmCues(m, dt, pick);
    } else {
      QuietCues(m, RevealStep(m, dt, input, pick), dt);
    }
  }

  /** Confirm after the reveal: the new round's requests obey the rules. */
  lemma RevealConfirmCues(m: Model, dt: real, pick: nat)
    requires m.state == Reveal && pick < OrdersPerTier
    ensures var r := StartNewRound(Emit(m.(timer := m.timer - dt), Effect(ButtonPress)), pick);
      |r.sounds| >= |m.sounds| && CueRules(m, r, dt)
  {
    ConfirmedRoundCues(m.(timer := m.timer - dt), pick);
  }

  /** A tick that adds no request and no round obeys the rules. */
  lemma QuietCues(m: Model, r: Model, dt: real)
    requires m.state != Playing && r.sounds == m.sounds && r.round == m.round
    ensures |r.sounds| >= |m.sounds| && CueRules(m, r, dt)
  {
    assert r.sounds[|m.sounds|..] == [];
  }

  lemma StepCues(m: Model, dt: real, input: FrameInput, d: Draws)
    requires Valid(m) && d.order < OrdersPerTier
    ensures var r := Step(m, dt, input, d); |r.sounds| >= |m.sounds| && CueRules(m, r, dt)
  {
    match m.state
    case Menu => MenuCues(m, dt, input, d.order);
    case Briefing => BriefingCues(m, dt, d.arrows);
    case Playing => PlayingCues(m, dt, input, d.drift);
    case Reveal => RevealCues(m, dt, input, d.order);
    case GameOver =>
  }

  /** The siren is requested exactly when a tick enters the briefing of a NIGHTMARE round, with sound on. */
  lemma SirenOnlyForNightmare(m: Model, dt: real, input: FrameInput, d: Draws)
    requires Valid(m) && d.order < OrdersPerTier
    ensures var r := Step(m, dt, input, d);
      Effect(Siren) in NewSounds(m, dt, input, d) <==>
        m.audio && r.round == m.round + 1 && r.tier == Some(Nightmare)
  {
    StepCues(m, dt, input, d);
  }

  /** The countdown loop is requested exactly on a playing tick that leaves the timer in (0, 5] while it is not looping. */
  lemma CountdownOnlyWhenLow(m: Model, dt: real, input: FrameInput, d: Draws)
    requires Valid(m) && d.order < OrdersPerTier
    ensures StartLoop(Countdown) in NewSounds(m, dt, input, d) <==>
      m.audio && m.state == Playing && 0.0 < m.timer - dt <= 5.0 && Countdown !in m.looping
  {
    StepCues(m, dt, input, d);
  }

  /** The reveal cue: "perfect" for 4 points, "success" for 2 or 3, "fail" for 0 or 1. */
  lemma RevealCueChoice(m: Model)
    requires m.order.Some? && m.audio
    ensures var r := EndActionPhase(m);
      var gained := r.score - m.score;
      r.sounds[|r.sounds| - 1] == Effect(RevealCue(gained)) &&
      (gained == 4 ==> RevealCue(gained) == Perfect) &&
      (2 <= gained <= 3 ==> RevealCue(gained) == SuccessCue) &&
      (gained <= 1 ==> RevealCue(gained) == Fail)
  {
  }

  /** Evaluating straight after configuration and reset: only the Builder and the Foreman succeed. */
  lemma FreshRoundEvaluation(m: Model, arrows: nat -> Arrow)
    requires m.order.Some? && m.tier.Some?
    ensures var r := EndActionPhase(StartActionPhase(m, arrows));
      r.results == Some(RoundResult(m.order.value.Name(), [true, false, false, true])) &&
      r.score == m.score + 2
  {
    var p := StartActionPhase(m, arrows);
    assert Outcomes(p) == [true, false, false, true];
    CountFour(true, false, false, true);
  }

  /**
   * A sequence finished on the tick the timer runs out is scored as a
   * failure: completion is only noticed on the tick after the last arrow.
   */
  lemma LastTickFinishFails(m: Model, dt: real, input: FrameInput, d: Draws)
    requires Valid(m) && d.order < OrdersPerTier && m.state == Playing
    requires m.timer - dt <= 0.0
    requires !m.decorator.completed && !m.decorator.success && |m.decorator.arrowSequence| > 0
    requires m.decorator.currentIndex == |m.decorator.arrowSequence| - 1
    requires m.decorator.arrowSequence[m.decorator.currentIndex] in input.p3.keysPressed
    ensures var r := Step(m, dt, input, d);
      r.state == Reveal && r.results.Some? && !r.results.value.successes[2] &&
      r.decorator.currentIndex == |r.decorator.arrowSequence|
  {
    PlayingTick(m, dt, input, d);
    DecoratorLastArrowPending(m.decorator, input.p3.keysPressed);
  }

  /** A tick in which no player touches anything. */
  predicate Idle(input: FrameInput) {
    !input.p1.any && !input.p2.pressed && input.p3.keysPressed == [] &&
    !input.p4.left && !input.p4.right
  }

  /** A session tick in which nobody touches anything, confirm included, and the needle does not drift. */
  predicate IdleTick(t: Tick) {
    Idle(t.input) && !t.input.confirm && t.draws.drift == 0.0 && t.dt > 0.0 && t.draws.order < OrdersPerTier
  }

  predicate IdleTicks(ticks: seq<Tick>) {
    forall i :: 0 <= i < |ticks| ==> IdleTick(ticks[i])
  }

  /** Total frame time of a session. */
  function SumDt(ticks: seq<Tick>): real
    decreases |ticks|
  {
    if ticks == [] then 0.0 else SumDt(ticks[..|ticks| - 1]) + ticks[|ticks| - 1].dt
  }

  /**
   * An untouched action phase: the bar at or below the line and decaying
   * faster than it fills, no press latched, the Decorator at the start of a
   * non-empty sequence, the needle centred, and time left.
   */
  predicate IdlePhase(m: Model) {
    m.state == Playing && m.timer > 0.0 && m.order.Some? &&
    m.builder.qualityBar <= BuilderQualityLine && m.builder.decayRate > BuilderFillRate &&
    !m.wrapper.hasPressed &&
    m.decorator.currentIndex == 0 && !m.decorator.completed && !m.decorator.success &&
    |m.decorator.arrowSequence| > 0 &&
    m.foreman.needlePosition == 0.5
  }

  /** The reveal an untouched round ends in: only the Foreman succeeds, and the round scores 1. */
  predicate IdleReveal(m: Model, r: Model) {
    m.order.Some? &&
    r.state == Reveal && r.round == m.round && r.score == m.score + 1 &&
    r.results == Some(RoundResult(m.order.value.Name(), [false, false, false, true]))
  }

  /** One untouched playing frame either keeps the phase untouched or ends it in the idle reveal. */
  lemma IdlePlayingTick(m: Model, t: Tick)
    requires Valid(m) && IdlePhase(m) && IdleTick(t)
    ensures var r := Step(m, t.dt, t.input, t.draws);
      (m.timer - t.dt > 0.0 ==>
        IdlePhase(r) && r.timer == m.timer - t.dt &&
        r.round == m.round && r.score == m.score && r.order == m.order) &&
      (m.timer - t.dt <= 0.0 ==> IdleReveal(m, r))
  {
    PlayingTick(m, t.dt, t.input, t.draws);
    BuilderDecaysBelowLine(m.builder, t.dt, false);
    DecoratorStepCases(m.decorator, []);
    ForemanStill(m.foreman, t.dt);
    var w := WrapperUpdate(m.wrapper, t.dt, false);
    assert !w.hasPressed && WrapperValid(w);
    CountFour(false, false, false, true);
  }

  /**
   * Any number of untouched frames from an untouched action phase: while the
   * frames add up to less than the timer the phase stays untouched with the
   * timer counted down; then it is over, in the idle reveal, where it stays.
   */
  lemma {:induction false} IdlePlayingRun(m: Model, ticks: seq<Tick>)
    requires Valid(m) && IdlePhase(m) && IdleTicks(ticks)
    ensures DrawsOk(ticks)
    ensures var r := Run(m, ticks);
      (IdlePhase(r) && r.timer == m.timer - SumDt(ticks) &&
       r.round == m.round && r.score == m.score && r.order == m.order) ||
      IdleReveal(m, r)
    ensures SumDt(ticks) >= m.timer ==> IdleReveal(m, Run(m, ticks))
    decreases |ticks|
  {
    if ticks != [] {
      var front := ticks[..|ticks| - 1];
      var last := ticks[|ticks| - 1];
      assert IdleTicks(front) by {
        forall i | 0 <= i < |front| ensures IdleTick(front[i]) {
          assert front[i] == ticks[i];
        }
      }
      IdlePlayingRun(m, front);
      var r0 := Run(m, front);
      assert Run(m, ticks) == Step(r0, last.dt, last.input, last.draws);
      if IdlePhase(r0) && r0.timer == m.timer - SumDt(front) && r0.round == m.round &&
         r0.score == m.score && r0.order == m.order {
        IdlePlayingTick(r0, last);
      } else {
        RevealGate(r0, last.dt, last.input, last.draws);
      }
    }
  }

  /**
   * The briefing tick that runs the timer out, then any number of untouched
   * frames adding up to at least the order's time limit: the round ends in
   * REVEAL with Builder, Wrapper and Decorator failed and the Foreman
   * succeeding, and scores 1.
   */
  lemma IdleRoundScoresOne(m: Model, t1: Tick, ticks: seq<Tick>)
    requires Valid(m) && m.state == Briefing
    requires t1.draws.order < OrdersPerTier && t1.dt >= m.timer
    requires IdleTicks(ticks) && SumDt(ticks) >= m.order.value.timeLimit as real
    ensures var p := Step(m, t1.dt, t1.input, t1.draws);
      p.state == Playing && p.timer == m.order.value.timeLimit as real &&
      IdleReveal(m, Run(p, ticks))
  {
    var o := m.order.value;
    assert WellFormed(o);
    var p := Step(m, t1.dt, t1.input, t1.draws);
    BriefingCountsDown(m, t1.dt, t1.input, t1.draws);
    assert p.order == m.order && p.round == m.round;
    assert IdlePhase(p);
    IdlePlayingRun(p, ticks);
  }
}

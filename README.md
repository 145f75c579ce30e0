# Holiday Panic Factory: a verified model of the round logic

Holiday Panic Factory is a four-player party game. Each round shows a toy order. During a shared countdown, four players each play their own mini-game:

- **Builder**: keep a decaying quality bar up.
- **Wrapper**: press once while a bouncing cursor is inside a green zone.
- **Decorator**: type an arrow sequence.
- **Foreman**: keep a drifting needle centred.

The game object sequences MENU → BRIEFING → PLAYING → REVEAL → BRIEFING. It picks each round's order from a tiered catalog and adds up the players' successes.

This project models that logic in Dafny and proves properties of the model. It has four parts:

- **`config.dfy`** (module `Config`) is the static data:
  - the tiers and the nine-order catalog;
  - the arrow directions and the Foreman drift multipliers;
  - the game states and the timing constants.
- **`mechanics.dfy`** (module `Mechanics`) and **`players.dfy`** (module `Players`) cover the four players.
  - `Mechanics` gives each player's state as a record, and `reset`, `set_difficulty`, `update` and `check_success` as functions on it. The lemmas about them are there too.
  - `Players` has one class per player with the fields the source updates. The tuning values the source stores as fields but never changes (`fill_rate`, `cursor_speed`, `zone_center`, `drift_speed`, `control_speed`) are module constants of `Mechanics` (`BuilderFillRate`, `CursorSpeed`, `ZoneCenter`, `DriftSpeed`, `ControlSpeed`). Each state-changing method is proved to perform the `Mechanics` transition: `State() == F(old(State()), …)`. `Decorator.CheckSuccess` changes nothing and returns the stored flag.
- **`round.dfy`** (module `Round`) and **`orchestrator.dfy`** (module `Orchestrator`) cover the game object.
  - `Round` gives everything the game object holds as a `Model` record. `Step` is one call of `update`, and the lemmas about rounds, scores and sound requests are proved over it.
  - Class `Orchestrator.Game` owns the four player objects. Each of its methods is proved to perform the matching `Round` transition through `Model()`, so everything proved in `Round` holds of the object.
- **`input.dfy`** (module `Input`) is the keyboard tracker.
  - `ApplyEvents` is the value-level fold of one `update` over a batch of key events.
  - Class `InputManager` performs that fold in place, with loops over the mapping table. Its queries build the per-player inputs.

Every random draw becomes a parameter (`Round.Draws`):

- the order index within the tier;
- the Decorator's arrow source (`nat -> Arrow`);
- the Foreman's drift sample.

The sound manager becomes two things:

- `sounds`: a log of requests, appended only when a sound sink is attached (`audio`);
- `looping`: the set of looping effects the sink plays, standing in for `sfx_channels`.

Sprite lookups are dropped, and the reveal keeps the toy's name and the four outcomes.

### Behaviour worth knowing

- The Decorator does not notice completion on the tick that enters the last arrow. It notices on the next update call (players.py:232-238). So a sequence finished on the tick on which the timer runs out is scored as a failure (`Mechanics.DecoratorLastArrowPending`, `Round.LastTickFinishFails`).
- The reveal record holds the toy name and the four outcomes, but not the round score (game.py:123-129). The score is added to the running total.
- "Pressed this frame" means the batch of events had a key-down for one of the action's keys (input_manager.py:110-123). It is not a diff against the previous frame's key state. The game's own `previous_keys` field is never read.
- The timer is decremented and the four players are updated on every PLAYING tick, including the tick on which the timer runs out. The round is evaluated only after that.

## Model

| member | source | states |
|---|---|---|
| Config.Orders | config.py:46-134 | every tier has exactly three orders, so choosing one of three is always defined, and every order is well formed |
| Config.EasyOrders | config.py:47-75 | the EASY orders Socks, Ball and Box with their exact parameters; three of them, each well formed |
| Config.StandardOrders | config.py:76-104 | the STANDARD orders Robot, Doll and Bicycle; three, each well formed |
| Config.NightmareOrders | config.py:105-133 | the NIGHTMARE orders Grand Piano, T-Rex and Spaceship; three, each well formed |
| Config.TierBands | config.py:47-133 | the parameter bands of each tier: EASY zone at least 0.26, STANDARD zone in [0.15, 0.18], NIGHTMARE zone at most 0.06, plus the arrow count, time limit and decay bands |
| Config.TiersGrowHarder | config.py:47-133 | every order of a lower tier has a larger zone and fewer arrows, a shorter time limit and a lower decay than every order of a higher tier |
| Config.TierValues | config.py:39-42 | EASY = 1 < STANDARD = 2 < NIGHTMARE = 3 |
| Config.DriftOrdering | config.py:199-202 | the drift multipliers 1.0 < 1.5 < 2.5 follow the tier order |
| Config.TimingConstants | config.py:213-217 | the briefing and reveal durations are positive and the Builder threshold is 0.5 |
| Config.ArrowDirectionsComplete | config.py:196 | the direction list has each of the four directions exactly once |
| Mechanics.Clamp01 | players.py:57-58 | the result lies in [0, 1], equals its argument inside, and saturates outside |
| Mechanics.BuilderReset | players.py:40-42 | reset sets the bar to 0.5 and clears success, keeping the decay rate; checking right after reset succeeds |
| Mechanics.BuilderConfigure | players.py:44-46 | the decay rate becomes the order's rate, the bar and the flag are kept; `Round.BriefingCountsDown` shows it applied after the reset |
| Mechanics.BuilderUpdate | players.py:48-58 | after any update the bar is in [0, 1], and the decay rate and success are unchanged |
| Mechanics.BuilderChecked | players.py:60-63 | success iff the bar is at or above 0.5, nothing else changes; `Mechanics.BuilderDecaysBelowLine` gives the failing case |
| Mechanics.BuilderDecaysBelowLine | players.py:48-63 | when the decay beats the fill and dt > 0, a bar at or below the line ends strictly below it, so the check fails |
| Mechanics.BuilderIdleNeverRises | players.py:48-58 | with no input and a non-negative decay, the bar never rises |
| Mechanics.WrapperReset | players.py:123-127 | reset clears the press, puts the cursor at 0, keeps the direction and zone, and the check then fails |
| Mechanics.WrapperConfigure | players.py:129-131 | the zone becomes the order's zone, the press and flag are kept, and the Wrapper invariant holds on |
| Mechanics.WrapperUpdate | players.py:133-150 | keeps the cursor on [0, 1] with direction ±1; a latched Wrapper is unchanged; a press latches the position after this tick's move |
| Mechanics.WrapperBounce | players.py:136-144 | the direction becomes −1 at the right end and +1 at the left end; in between the cursor moves by speed·direction·dt |
| Mechanics.WrapperChecked | players.py:152-160 | success iff a press was recorded inside [0.5 − z/2, 0.5 + z/2]; no press means failure; nothing but the flag changes |
| Mechanics.ZoneEdgesHit | players.py:156-159 | a press at the centre or exactly at either zone end succeeds |
| Mechanics.FarPressMisses | players.py:156-159 | a press further than z/2 from the centre fails |
| Mechanics.WrapperLatchHolds | players.py:133-150 | once latched, any number of further updates change nothing |
| Mechanics.DecoratorReset | players.py:221-224 | reset sets the index to 0 and clears completion and success, keeping the sequence |
| Mechanics.DecoratorConfigure | players.py:226-228 | the new sequence has the requested length and its i-th arrow is the i-th draw |
| Mechanics.DecoratorUpdate | players.py:230-251 | a completed matcher is frozen; completion and success are set exactly when the index has reached the end; the index never passes the sequence length |
| Mechanics.DecoratorStepCases | players.py:240-251 | before the end: the expected arrow among the pressed ones advances the index by one, any other press resets it to 0, no press leaves it alone |
| Mechanics.DecoratorCorrectPrefix | players.py:246-248 | entering the first k arrows one per tick from a fresh start leaves the index at k, not completed |
| Mechanics.DecoratorPerfectRun | players.py:230-238 | N correct arrows then one more update give completion with success and index N |
| Mechanics.DecoratorWrongResets | players.py:249-251 | a wrong arrow after k correct ones resets the index to 0 |
| Mechanics.DecoratorLastArrowPending | players.py:232-248 | the tick that enters the last arrow leaves the index at the end without completion or success |
| Mechanics.DecoratorEmptyCompletes | players.py:235-238 | an empty sequence completes with success on its first update |
| Mechanics.ForemanReset | players.py:313-315 | reset puts the needle at 0.5, clears success, keeps the multiplier, and the check then succeeds |
| Mechanics.ForemanConfigure | players.py:317-324 | NIGHTMARE sets 2.5, STANDARD 1.5 and EASY 1.0, leaving the needle alone |
| Mechanics.ForemanUpdate | players.py:326-339 | after any update the needle is in [0, 1], with the multiplier and success unchanged |
| Mechanics.ForemanChecked | players.py:341-345 | success iff 0.2 < needle < 0.8, the strict test; nothing but the flag changes |
| Mechanics.ForemanBothHeldCancel | players.py:333-337 | holding both controls is the same as holding neither |
| Mechanics.ForemanStill | players.py:326-339 | with a zero sample and nothing held, the needle stays where it is |
| Mechanics.ForemanCalmRun | players.py:326-339 | with zero samples throughout and nothing held, any number of ticks leave the needle in place |
| Mechanics.ForemanNoDriftRun | players.py:326-345 | with multiplier 0 and nothing held, a needle at 0.5 stays there for any samples and succeeds |
| Players.Builder.constructor | players.py:34-38 | a new Builder has bar 0, decay 0.5 and no success |
| Players.Builder.Reset | players.py:40-42 | performs `BuilderReset` on the fields |
| Players.Builder.SetDifficulty | players.py:44-46 | performs `BuilderConfigure` on the fields |
| Players.Builder.Update | players.py:48-58 | performs `BuilderUpdate` with the player's `any` input; the bar ends in [0, 1] |
| Players.Builder.CheckSuccess | players.py:60-63 | stores and returns whether the bar is at or above 0.5 |
| Players.Wrapper.constructor | players.py:113-121 | a new Wrapper has cursor 0 moving right, zone 0.3 and no press |
| Players.Wrapper.Reset | players.py:123-127 | performs `WrapperReset` on the fields |
| Players.Wrapper.SetDifficulty | players.py:129-131 | performs `WrapperConfigure` on the fields |
| Players.Wrapper.Update | players.py:133-150 | performs `WrapperUpdate` with the edge-triggered press and keeps the Wrapper invariant |
| Players.Wrapper.CheckSuccess | players.py:152-160 | stores and returns whether the recorded press is inside the zone |
| Players.Decorator.constructor | players.py:215-219 | a new Decorator has an empty sequence at index 0 |
| Players.Decorator.Reset | players.py:221-224 | performs `DecoratorReset` on the fields |
| Players.Decorator.SetDifficulty | players.py:226-228 | performs `DecoratorConfigure` with the random arrow source |
| Players.Decorator.Update | players.py:230-251 | performs `DecoratorUpdate` with the directions pressed this frame |
| Players.Decorator.CheckSuccess | players.py:253-255 | returns the stored success flag |
| Players.Foreman.constructor | players.py:306-311 | a new Foreman has the needle at 0.5 and multiplier 1.0 |
| Players.Foreman.Reset | players.py:313-315 | performs `ForemanReset` on the fields |
| Players.Foreman.SetDifficulty | players.py:317-324 | performs `ForemanConfigure` with the tier |
| Players.Foreman.Update | players.py:326-339 | performs `ForemanUpdate` with the drift sample and held controls; the needle ends in [0, 1] |
| Players.Foreman.CheckSuccess | players.py:341-345 | stores and returns the strict centre test |
| Input.KeysOf | input_manager.py:214-215 | a single key becomes a one-element list; a list is kept as given |
| Input.ApplyEvent | input_manager.py:114-133 | a key-down appends its key, holds it and presses and holds every action mapped to it; a key-up releases only its key and never adds a held action or touches the pressed parts; other events change nothing; `Input.ApplyEventConsistent` keeps the held invariant |
| Input.ApplyEvents | input_manager.py:101-133 | the batch in order; the pressed parts only grow; `Input.PressedKeysExact`, `Input.PressedActionsExact` and `Input.ApplyEventsConsistent` state what it produces |
| Input.StartFrame | input_manager.py:109-111 | the per-frame parts are emptied and the held parts carried over |
| Input.ApplyEventConsistent | input_manager.py:114-133 | one key event keeps "an action is held iff one of its keys is held" |
| Input.ApplyEventsConsistent | input_manager.py:101-133 | a whole batch keeps the held invariant |
| Input.KeyDownsMembers | input_manager.py:114-116 | a key is among the pressed keys iff the batch has a key-down for it |
| Input.PressedKeysExact | input_manager.py:110-116 | after a batch, the pressed keys are exactly the key-down keys in order, repeats kept |
| Input.PressedActionsExact | input_manager.py:110-123 | after a batch, an action is pressed iff a key-down of the batch is for one of its keys |
| Input.KeyUpLeavesPressed | input_manager.py:125-133 | a key-up releases its key and never touches the pressed parts |
| Input.InputManager.constructor | input_manager.py:39-75 | the default table, everything empty, and the held invariant |
| Input.InputManager.ResetToDefaults | input_manager.py:231-234 | restores the default table, empties the tracked state, and the held invariant holds |
| Input.InputManager.Update | input_manager.py:101-133 | the new state is the fold of the batch from a state with emptied per-frame parts; pressed keys and actions are exactly this batch's key-downs; the held invariant is preserved; the table is unchanged |
| Input.InputManager.KeyDown | input_manager.py:114-123 | the new state is the key-down step of the fold: the key and every action mapped to it become pressed and held |
| Input.InputManager.KeyUp | input_manager.py:124-133 | the new state is the key-up step of the fold: the key is no longer held, no other key changes, and each of its actions none of whose keys is still held is released |
| Input.InputManager.IsActionHeld | input_manager.py:147-157 | under the held invariant, true iff some key of the action is held |
| Input.InputManager.IsActionPressed | input_manager.py:135-145 | a membership test in this frame's actions; `Input.InputManager.Update` states it is exactly `PressedIn` of the frame's events |
| Input.InputManager.IsKeyPressed | input_manager.py:159-169 | a membership test in this frame's keys; `Input.InputManager.Update` states it holds iff the batch has a key-down for the key |
| Input.InputManager.IsKeyHeld | input_manager.py:171-181 | a membership test in the held keys; `Input.InputManager.KeyDown` makes it true for its key and `Input.InputManager.KeyUp` false for its key, leaving every other key alone |
| Input.InputManager.RemapKey | input_manager.py:202-217 | replaces only this action's keys, wrapping a single key into a list; other mappings and the tracked state are unchanged |
| Input.InputManager.GetMapping | input_manager.py:219-229 | the action's keys, or the empty list for an action the table lacks |
| Input.InputManager.GetPlayer1Input | input_manager.py:238-256 | left and right are held states, the pressed flags are edges, and `any` is left or right held; under the held invariant, each held state is "some key of the action is held" |
| Input.InputManager.GetPlayer2Input | input_manager.py:258-268 | `pressed` is this frame's edge and `held` the level; under the held invariant, `held` means some key of P2_ACTION is held |
| Input.InputManager.GetPlayer3Input | input_manager.py:270-283 | the per-direction edges and the ordered, duplicate-free list of pressed directions |
| Input.InputManager.GetPlayer4Input | input_manager.py:285-295 | left and right are held states; under the held invariant, each is "some key of the action is held" |
| Input.InputManager.GetArrowKeysPressed | input_manager.py:297-314 | exactly the directions whose action was pressed, each once, in the order UP, DOWN, LEFT, RIGHT |
| Input.InputManager.Snapshot | input_manager.py:238-314 | one tick's reads: confirm is the MENU_CONFIRM edge; the Builder, Wrapper and Foreman parts are their queries; the Decorator part has the four per-direction edges and the pressed directions, each once, in the order UP, DOWN, LEFT, RIGHT |
| Round.Init | game.py:15-50 | a new game is valid, in the menu, at round 0 with score 0, nothing looping, and the menu music is the only request when it has sound |
| Round.Emit | game.py:80-81 | a sound call is recorded only when a sound sink is attached, appended at the end, and nothing else changes |
| Round.TierForRound | game.py:60-69 | EASY iff round ≤ 3, STANDARD iff 4 ≤ round ≤ 7, NIGHTMARE iff round ≥ 8 |
| Round.TierMonotone | game.py:60-69 | later rounds never have an easier tier |
| Round.StartNewRound | game.py:58-84 | the round goes up by exactly one, briefing starts with the briefing timer, the order is the picked entry of the round's tier, and the briefing music (plus the siren for NIGHTMARE) is requested |
| Round.StartActionPhase | game.py:86-106 | PLAYING with the order's time limit; all four players reset and then configured: bar 0.5 with the order's decay, cursor 0 with its direction kept and the order's zone, the Decorator at 0 with the order's number of arrows, each the matching draw, the needle at 0.5 with the tier's multiplier (1.0, 1.5, 2.5), every success flag cleared; round, score and order kept; the playing music and the whoosh requested |
| Round.CountTrue | game.py:131-133 | the count is at most the length, 0 iff all are false, the length iff all are true |
| Round.CountFour | game.py:131-133 | the score of four outcomes is the sum of their bits |
| Round.RevealCue | game.py:140-145 | "perfect" iff the score is 4, "fail" iff it is at most 1, "success" otherwise |
| Round.Outcomes | game.py:113-117 | exactly four outcomes: the Builder line test, the Wrapper zone test, the Decorator flag and the strict Foreman centre test |
| Round.Evaluate | game.py:108-133 | REVEAL with its timer, the toy name with the four outcomes recorded, and the score raised by their count, at most 4; round, order and sounds kept |
| Round.RevealAudio | game.py:135-145 | with a sink: the countdown loop stops, three requests are appended, the last being the score's cue; without one nothing changes |
| Round.EndActionPhase | game.py:108-145 | REVEAL, the outcomes recorded, between 0 and 4 added; `Round.RoundScoreBounds`, `Round.EndCues` and `Round.RevealCueChoice` state the rest |
| Round.CountdownCue | game.py:164-169 | with a sink and the timer in (0, 5], the countdown loop is playing afterwards; if it already is, or there is no sink, or the timer is outside that range, nothing changes; only the sound log and the looping set change, and the one request appended is the countdown loop |
| Round.UpdateMechanics | game.py:171-175 | only the four players change; the bar and needle stay in [0, 1] and the Wrapper invariant holds on |
| Round.MenuStep | game.py:149-154 | a menu tick keeps the game invariant |
| Round.BriefingStep | game.py:156-159 | a briefing tick keeps the game invariant |
| Round.PlayingStep | game.py:161-179 | a playing tick keeps the game invariant, including the decorator index bound |
| Round.RevealStep | game.py:181-188 | a reveal tick keeps the game invariant |
| Round.Step | game.py:147-188 | every tick keeps the game invariant: tier and order match the round, the score is at most 4 per round, the reveal has four outcomes, every player is within bounds |
| Round.MenuWaits | game.py:149-154 | without confirm the menu is unchanged, timer included; with confirm, round 1 of EASY begins with the briefing timer |
| Round.BriefingCountsDown | game.py:156-159 | the briefing counts down by dt; at or below zero, PLAYING starts with the order's time limit and all four players reset and then configured from the order and tier |
| Round.PlayingTick | game.py:161-179 | every playing tick, the last included, counts down and updates all four players; only then, if time is up, they are evaluated in order and the round is scored |
| Round.LastTickFinishFails | game.py:161-179 | entering the last arrow on the tick the timer expires still scores the Decorator as failed |
| Round.RoundScoreBounds | game.py:108-133 | the end of a round moves to REVEAL, records the toy name and the four outcomes, and adds between 0 and 4; 4 iff all four succeed |
| Round.RevealGate | game.py:181-188 | confirm is ignored while the decremented timer is positive; with the timer out, confirm starts the next round |
| Round.MenuAdvances | game.py:149-154 | a menu tick does not lower the score, adds at most one round, and extends the sound log |
| Round.BriefingAdvances | game.py:156-159 | the same for a briefing tick |
| Round.PlayingAdvances | game.py:161-179 | the same for a playing tick |
| Round.RevealAdvances | game.py:181-188 | the same for a reveal tick |
| Round.StepMonotone | game.py:147-188 | a tick never lowers the score, adds at most one round, enters BRIEFING exactly when it adds one, never returns to MENU, and only appends sound requests |
| Round.Run | game.py:147-188 | any session of ticks keeps the game invariant |
| Round.RunMonotone | game.py:147-188 | over any session, the score and the round never decrease and MENU is never re-entered |
| Round.RunSoundsGrow | game.py:147-188 | over any session, the sound log only grows at its end |
| Round.ConfirmedRoundCues | game.py:152-154 | a confirmed new round requests the button press and the briefing music, and the siren iff the new tier is NIGHTMARE |
| Round.MenuCues | game.py:149-154 | menu ticks follow the siren and countdown rules |
| Round.BriefingCues | game.py:156-159 | briefing ticks follow the siren and countdown rules |
| Round.MechanicsKeepRound | game.py:171-175 | updating the players leaves the round, timer and sounds alone |
| Round.EndCues | game.py:135-145 | the end of a round requests the countdown stop, the reveal music and the cue, and nothing else |
| Round.PlayingCues | game.py:161-179 | playing ticks follow the siren and countdown rules |
| Round.RunningCues | game.py:161-169 | a playing tick with time left adds at most the countdown loop, and only under its rule |
| Round.EndingCues | game.py:161-179 | the tick that runs the timer out adds only the reveal's requests |
| Round.RevealCues | game.py:181-188 | reveal ticks follow the siren and countdown rules |
| Round.RevealConfirmCues | game.py:181-188 | confirm after the reveal starts a round whose requests obey the siren and countdown rules |
| Round.QuietCues | game.py:147-188 | a tick outside PLAYING that adds no request and no round obeys the rules |
| Round.StepCues | game.py:147-188 | every tick follows the siren and countdown rules |
| Round.SirenOnlyForNightmare | game.py:80-84 | the siren is requested exactly when a tick with sound enters the briefing of a NIGHTMARE round |
| Round.CountdownOnlyWhenLow | game.py:164-169 | the countdown loop is requested exactly on a playing tick with sound that leaves the timer in (0, 5] while the loop is not registered |
| Round.RevealCueChoice | game.py:135-145 | the last request on entering the reveal is "perfect" for a round score of 4, "success" for 2 or 3, and "fail" otherwise |
| Round.FreshRoundEvaluation | game.py:86-133 | evaluating right after the reset and configuration gives Builder yes, Wrapper no, Decorator no, Foreman yes, and adds 2 |
| Round.IdlePlayingTick | game.py:161-179 | one untouched, drift-free frame of an untouched action phase keeps it untouched with the timer counted down, or, when the timer runs out, ends in REVEAL with only the Foreman succeeding and the score raised by 1 |
| Round.IdlePlayingRun | game.py:161-188 | any number of untouched frames: the phase stays untouched with the timer lowered by the frames' total, or it is over in that reveal and stays there; once the frames add up to the timer, it is over |
| Round.IdleRoundScoresOne | game.py:156-188 | the briefing tick that runs its timer out, then any number of untouched frames adding up to the order's time limit, end in REVEAL with Builder, Wrapper and Decorator failed, the Foreman succeeding, and 1 point added |
| Orchestrator.Game.constructor | game.py:15-50 | a new game object is `Round.Init` with fresh players |
| Orchestrator.Game.Request | game.py:80-81 | a sound call appends the request only when there is a sound sink |
| Orchestrator.Game.StartNewRound | game.py:58-84 | performs `Round.StartNewRound` on the fields |
| Orchestrator.Game.StartActionPhase | game.py:86-106 | performs `Round.StartActionPhase`: it resets all four players, then configures them, then makes the music and whoosh requests |
| Orchestrator.Game.EndActionPhase | game.py:108-145 | performs `Round.EndActionPhase` |
| Orchestrator.Game.CheckPlayers | game.py:113-117 | checks the four players in order; the results are the model's outcomes, and each player becomes its checked state |
| Orchestrator.Game.PlayRevealCues | game.py:135-145 | performs `Round.RevealAudio` |
| Orchestrator.Game.Update | game.py:147-188 | performs `Round.Step` and so keeps the game invariant |
| Orchestrator.Game.UpdateBriefing | game.py:156-159 | performs `Round.BriefingStep` |
| Orchestrator.Game.UpdatePlaying | game.py:161-179 | performs `Round.PlayingStep` |
| Orchestrator.Game.CueCountdown | game.py:164-169 | performs `Round.CountdownCue` |
| Orchestrator.Game.UpdatePlayers | game.py:171-175 | performs `Round.UpdateMechanics` on the four player objects |
| Orchestrator.Game.UpdateReveal | game.py:181-188 | performs `Round.RevealStep` |

The queries `IsActionPressed`, `IsKeyPressed` and `IsKeyHeld` are plain membership tests with no contract of their own. The rows above name the contracts that state what they mean.

## Left out

- Drawing: all `draw*` methods of the game and the players are rendering and font layout.
- Sound manager internals (`pygame.mixer`, channels, volumes, muting). A request is recorded and `looping` is updated as soon as the request is made. A sink that failed to start the loop would make the game ask again on later ticks, and the model does not capture that.
- Missing asset manager: `asset_manager` defaults to `None` (game.py:15), but `end_action_phase` calls `self.asset_manager.get_sprite` without checking it (game.py:124-126). A game built without one raises an error at the end of its first action phase. The model assumes an asset manager is attached, as main.py always does (main.py:49), so every round in the model reaches the reveal. It does not model that crash.
- Asset manager: the `get_sprite` lookups at the reveal and the `elf_image` load are file and image I/O. In the source that load sits inside the sound-manager check of `__init__`. The reveal keeps the toy name and successes.
- Randomness: order choice, arrow generation and drift sampling are parameters. The drift sample is not restricted to [−1, 1]; the proved properties hold for any sample.
- Floating point: fields are reals, with no IEEE rounding. `max(0, min(1, x))` returning an integer 0 or 1 is not distinguished from a real.
- Players.Builder.Update, Players.Wrapper.Update, Players.Decorator.Update, Players.Foreman.Update: these take the player's input record rather than the input manager. What each one queries is modelled by `InputManager.GetPlayer1Input` … `GetPlayer4Input`.
- Orchestrator.Game.Update: this takes one `FrameInput` snapshot for the tick (`InputManager.Snapshot`) instead of the live input manager. No query changes the tracker, so all reads within a tick agree.
- The `GAME_OVER` state is never entered; a tick in it changes nothing, as in the source. `WRAPPER_TOLERANCE` is unused in the source.
- Gamepads (`init_gamepads`, `get_gamepad_input`), the debug printers and the message printed by `remap_key` and `reset_to_defaults` are foreign calls or I/O. `ResetToDefaults` does not model the gamepad re-initialisation that `__init__` performs.
- `get_key_name` and `get_action_display_name` depend on `pygame.key.name`. `any_key_pressed` and the copying getters `get_keys_pressed_this_frame` and `get_actions_pressed_this_frame` are not part of this model.
- The base class's `player_number` and `quadrant`, the tracker's `last_key_time` and `gamepad_enabled`, and the game's `previous_keys` are stored but never read by the core.
- Key codes use pygame 2 numbering. Only their distinctness matters to the model.
- The Foreman's fall-through for a value that is not a tier: tiers are an enumeration here, so "anything else" is EASY.
- The frame loop and the clock in main.py, and the asset-folder script create_asset_folders.py, are process plumbing.

/**
 * Keyboard input tracking: a batch of key events is folded into the keys and
 * actions pressed this frame and the keys and actions held, through a
 * remappable table from actions to keys.  `ApplyEvents` is the value-level
 * meaning of one `update`; class InputManager does it in place.
 */
module Input {
  import opened Config

  datatype InputAction =
    | P1Left | P1Right
    | P2Action
    | P3Up | P3Down | P3Left | P3Right
    | P4Left | P4Right
    | MenuConfirm | MenuBack | Pause | Mute

  /** A keyboard key code. */
  type Key = int

  // The key codes of the default table (pygame 2 numbering).
  const KeyA: Key := 97
  const KeyD: Key := 100
  const KeySpace: Key := 32
  const KeyUp: Key := 1073741906
  const KeyDown: Key := 1073741905
  const KeyLeft: Key := 1073741904
  const KeyRight: Key := 1073741903
  const KeyKeypad4: Key := 1073741916
  const KeyLeftBracket: Key := 91
  const KeyKeypad6: Key := 1073741918
  const KeyRightBracket: Key := 93
  const KeyReturn: Key := 13
  const KeyKeypadEnter: Key := 1073741912
  const KeyEscape: Key := 27
  const KeyP: Key := 112
  const KeyM: Key := 109

  const DefaultMappings: map<InputAction, seq<Key>> := map[
    P1Left := [KeyA], P1Right := [KeyD],
    P2Action := [KeySpace],
    P3Up := [KeyUp], P3Down := [KeyDown], P3Left := [KeyLeft], P3Right := [KeyRight],
    P4Left := [KeyKeypad4, KeyLeftBracket], P4Right := [KeyKeypad6, KeyRightBracket],
    MenuConfirm := [KeyReturn, KeyKeypadEnter], MenuBack := [KeyEscape],
    Pause := [KeyEscape, KeyP], Mute := [KeyM]]

  /** The events `update` looks at; every other event type is ignored. */
  datatype Event = KeyDownEvent(key: Key) | KeyUpEvent(key: Key) | OtherEvent

  /** The argument of `remap_key`: a single key or a list of keys. */
  datatype KeysArg = OneKey(key: Key) | KeyList(keys: seq<Key>)

  function KeysOf(arg: KeysArg): (r: seq<Key>)
    ensures arg.OneKey? ==> r == [arg.key]
    ensures arg.KeyList? ==> r == arg.keys
  {
    match arg
    case OneKey(k) => [k]
    case KeyList(ks) => ks
  }

  // Per-player query results.
  datatype P1Input = P1Input(left: bool, right: bool, leftPressed: bool, rightPressed: bool, any: bool)
  datatype P2Input = P2Input(pressed: bool, held: bool)
  datatype P3Input = P3Input(upPressed: bool, downPressed: bool, leftPressed: bool, rightPressed: bool,
                             keysPressed: seq<Arrow>)
  datatype P4Input = P4Input(left: bool, right: bool)

  /** What the game reads from the input tracker in one tick. */
  datatype FrameInput = FrameInput(confirm: bool, p1: P1Input, p2: P2Input, p3: P3Input, p4: P4Input)

  function ArrowAction(d: Arrow): InputAction {
    match d
    case Up => P3Up
    case Down => P3Down
    case Left => P3Left
    case Right => P3Right
  }

  /** Position of a direction in `ArrowDirections`. */
  function Rank(d: Arrow): (r: nat)
    ensures r < |ArrowDirections| && ArrowDirections[r] == d
  {
    match d
    case Up => 0
    case Down => 1
    case Left => 2
    case Right => 3
  }

  // ------------------------------------------------------ the event fold

  /** The tracked state: keys and actions pressed this frame, keys and actions held. */
  datatype Tracked = Tracked(
    keysPressed: seq<Key>,
    keysHeld: set<Key>,
    actionsPressed: set<InputAction>,
    actionsHeld: set<InputAction>)

  /** Some key of `keys` is held. */
  predicate AnyHeld(keys: seq<Key>, held: set<Key>) {
    exists i :: 0 <= i < |keys| && keys[i] in held
  }

  /** The actions whose mapping contains `k`. */
  function MappedTo(m: map<InputAction, seq<Key>>, k: Key): set<InputAction> {
    set a | a in m && k in m[a]
  }

  /** The actions mapped to `k` none of whose keys is still held. */
  function Released(m: map<InputAction, seq<Key>>, k: Key, held: set<Key>): set<InputAction> {
    set a | a in m && k in m[a] && !AnyHeld(m[a], held)
  }

  /** One event of the batch. */
  function ApplyEvent(m: map<InputAction, seq<Key>>, t: Tracked, e: Event): (r: Tracked)
    ensures e.KeyDownEvent? ==>
      r.keysPressed == t.keysPressed + [e.key] && e.key in r.keysHeld &&
      (forall a :: a in m && e.key in m[a] ==> a in r.actionsPressed && a in r.actionsHeld)
    ensures e.KeyUpEvent? ==>
      r.keysPressed == t.keysPressed && r.actionsPressed == t.actionsPressed &&
      r.keysHeld == t.keysHeld - {e.key} && r.actionsHeld <= t.actionsHeld
    ensures e.OtherEvent? ==> r == t
  {
    match e
    case KeyDownEvent(k) =>
      Tracked(t.keysPressed + [k], t.keysHeld + {k},
              t.actionsPressed + MappedTo(m, k), t.actionsHeld + MappedTo(m, k))
    case KeyUpEvent(k) =>
      var held := t.keysHeld - {k};
      t.(keysHeld := held, actionsHeld := t.actionsHeld - Released(m, k, held))
    case OtherEvent => t
  }

  /** The whole batch, in order; pressed parts only grow. */
  function ApplyEvents(m: map<InputAction, seq<Key>>, t: Tracked, events: seq<Event>): (r: Tracked)
    ensures |r.keysPressed| >= |t.keysPressed| && r.keysPressed[..|t.keysPressed|] == t.keysPressed
    ensures t.actionsPressed <= r.actionsPressed
    decreases |events|
  {
    if events == [] then t
    else ApplyEvent(m, ApplyEvents(m, t, events[..|events| - 1]), events[|events| - 1])
  }

  /** The start of a frame: the per-frame parts are emptied, the held parts carry over. */
  function StartFrame(t: Tracked): (r: Tracked)
    ensures r.keysPressed == [] && r.actionsPressed == {}
    ensures r.keysHeld == t.keysHeld && r.actionsHeld == t.actionsHeld
  {
    t.(keysPressed := [], actionsPressed := {})
  }

  /** The keys of the batch's key-down events, in order, repeats kept. */
  function KeyDowns(events: seq<Event>): seq<Key>
    decreases |events|
  {
    if events == [] then []
    else
      var last := events[|events| - 1];
      KeyDowns(events[..|events| - 1]) + (if last.KeyDownEvent? then [last.key] else [])
  }

  /** A key is among the key-down keys exactly when the batch has a key-down event for it. */
  lemma {:induction false} KeyDownsMembers(events: seq<Event>, k: Key)
    ensures k in KeyDowns(events) <==> exists j :: 0 <= j < |events| && events[j] == KeyDownEvent(k)
    decreases |events|
  {
    if events != [] {
      var front := events[..|events| - 1];
      KeyDownsMembers(front, k);
      assert forall j :: 0 <= j < |front| ==> front[j] == events[j];
      if events[|events| - 1] == KeyDownEvent(k) {
        assert k in KeyDowns(events);
      }
    }
  }

  /** Some key-down event of the batch is for a key mapped to `a`. */
  predicate PressedIn(m: map<InputAction, seq<Key>>, events: seq<Event>, a: InputAction) {
    a in m && exists j :: 0 <= j < |events| && events[j].KeyDownEvent? && events[j].key in m[a]
  }

  /** An action is held exactly when one of its mapped keys is. */
  predicate HeldConsistent(m: map<InputAction, seq<Key>>, keysHeld: set<Key>, actionsHeld: set<InputAction>) {
    forall a :: a in actionsHeld <==> a in m && AnyHeld(m[a], keysHeld)
  }

  /** One event keeps the held invariant. */
  lemma ApplyEventConsistent(m: map<InputAction, seq<Key>>, t: Tracked, e: Event)
    requires HeldConsistent(m, t.keysHeld, t.actionsHeld)
    ensures var r := ApplyEvent(m, t, e); HeldConsistent(m, r.keysHeld, r.actionsHeld)
  {
    var r := ApplyEvent(m, t, e);
    match e
    case KeyDownEvent(k) =>
      forall a | a in m
        ensures a in r.actionsHeld <==> AnyHeld(m[a], r.keysHeld)
      {
        if k in m[a] {
          var i :| 0 <= i < |m[a]| && m[a][i] == k;
          assert m[a][i] in r.keysHeld;
        } else if AnyHeld(m[a], r.keysHeld) {
          var i :| 0 <= i < |m[a]| && m[a][i] in r.keysHeld;
          assert m[a][i] in t.keysHeld;
        }
      }
    case KeyUpEvent(k) =>
      forall a | a in m
        ensures a in r.actionsHeld <==> AnyHeld(m[a], r.keysHeld)
      {
        if AnyHeld(m[a], r.keysHeld) {
          var i :| 0 <= i < |m[a]| && m[a][i] in r.keysHeld;
          assert m[a][i] in t.keysHeld;
        }
        if k !in m[a] && AnyHeld(m[a], t.keysHeld) {
          var i :| 0 <= i < |m[a]| && m[a][i] in t.keysHeld;
          assert m[a][i] in r.keysHeld;
        }
      }
    case OtherEvent =>
  }

  /** A whole batch keeps the held invariant, so it holds after any number of frames. */
  lemma {:induction false} ApplyEventsConsistent(m: map<InputAction, seq<Key>>, t: Tracked, events: seq<Event>)
    requires HeldConsistent(m, t.keysHeld, t.actionsHeld)
    ensures var r := ApplyEvents(m, t, events); HeldConsistent(m, r.keysHeld, r.actionsHeld)
    decreases |events|
  {
    if events != [] {
      ApplyEventsConsistent(m, t, events[..|events| - 1]);
      ApplyEventConsistent(m, ApplyEvents(m, t, events[..|events| - 1]), events[|events| - 1]);
    }
  }

  /** The keys pressed this frame are exactly the batch's key-down keys, in order, repeats kept. */
  lemma {:induction false} PressedKeysExact(m: map<InputAction, seq<Key>>, t: Tracked, events: seq<Event>)
    ensures ApplyEvents(m, StartFrame(t), events).keysPressed == KeyDowns(events)
    decreases |events|
  {
    if events != [] {
      PressedKeysExact(m, t, events[..|events| - 1]);
    }
  }

  /** The actions pressed this frame are exactly those mapped to a key of one of the batch's key-down events. */
  lemma {:induction false} PressedActionsExact(m: map<InputAction, seq<Key>>, t: Tracked, events: seq<Event>, a: InputAction)
    ensures a in ApplyEvents(m, StartFrame(t), events).actionsPressed <==> PressedIn(m, events, a)
    decreases |events|
  {
    if events != [] {
      var front := events[..|events| - 1];
      PressedActionsExact(m, t, front, a);
      assert forall j :: 0 <= j < |front| ==> front[j] == events[j];
    }
  }

  /** Key-up events never touch the pressed parts; only key-down events add to them. */
  lemma KeyUpLeavesPressed(m: map<InputAction, seq<Key>>, t: Tracked, k: Key)
    ensures ApplyEvent(m, t, KeyUpEvent(k)).keysPressed == t.keysPressed
    ensures ApplyEvent(m, t, KeyUpEvent(k)).actionsPressed == t.actionsPressed
    ensures k !in ApplyEvent(m, t, KeyUpEvent(k)).keysHeld
  {
  }

  // ------------------------------------------------------ the tracker object

  class InputManager {
    var keyMappings: map<InputAction, seq<Key>>
    var keysPressedThisFrame: seq<Key>
    var keysHeld: set<Key>
    var actionsPressedThisFrame: set<InputAction>
    var actionsHeld: set<InputAction>

    function Current(): Tracked
      reads this
    {
      Tracked(keysPressedThisFrame, keysHeld, actionsPressedThisFrame, actionsHeld)
    }

    /** The held invariant for the current table. */
    predicate Consistent()
      reads this
    {
      HeldConsistent(keyMappings, keysHeld, actionsHeld)
    }

    constructor ()
      ensures keyMappings == DefaultMappings
      ensures Current() == Tracked([], {}, {}, {})
      ensures Consistent()
    {
      keyMappings := DefaultMappings;
      keysPressedThisFrame, keysHeld := [], {};
      actionsPressedThisFrame, actionsHeld := {}, {};
    }

    /** Restores the default table and empties all tracked state. */
    method ResetToDefaults()
      modifies this
      ensures keyMappings == DefaultMappings
      ensures Current() == Tracked([], {}, {}, {})
      ensures Consistent()
    {
      keyMappings := DefaultMappings;
      keysPressedThisFrame, keysHeld := [], {};
      actionsPressedThisFrame, actionsHeld := {}, {};
    }

    /**
     * Folds one frame's events: empties what was pressed last frame, then
     * lets each key-down press and hold its key and every action mapped to
     * it, and each key-up release its key and those of its actions no key of
     * which is still held.
     */
    method Update(events: seq<Event>)
      modifies this
      ensures keyMappings == old(keyMappings)
      ensures Current() == ApplyEvents(keyMappings, StartFrame(old(Current())), events)
      ensures keysPressedThisFrame == KeyDowns(events)
      ensures forall k :: IsKeyPressed(k) <==> exists j :: 0 <= j < |events| && events[j] == KeyDownEvent(k)
      ensures forall a :: IsActionPressed(a) <==> PressedIn(keyMappings, events, a)
      ensures old(Consistent()) ==> Consistent()
    {
      ghost var start := StartFrame(Current());
      keysPressedThisFrame := [];
      actionsPressedThisFrame := {};
      for i := 0 to |events|
        invariant keyMappings == old(keyMappings)
        invariant Current() == ApplyEvents(keyMappings, start, events[..i])
      {
        assert events[..i + 1][..i] == events[..i];
        match events[i]
        case KeyDownEvent(k) => KeyDown(k);
        case KeyUpEvent(k) => KeyUp(k);
        case OtherEvent =>
      }
      assert events[..|events|] == events;
      PressedKeysExact(keyMappings, old(Current()), events);
      forall k
        ensures IsKeyPressed(k) <==> exists j :: 0 <= j < |events| && events[j] == KeyDownEvent(k)
      {
        KeyDownsMembers(events, k);
      }
      forall a
        ensures IsActionPressed(a) <==> PressedIn(keyMappings, events, a)
      {
        PressedActionsExact(keyMappings, old(Current()), events, a);
      }
      if old(Consistent()) {
        ApplyEventsConsistent(keyMappings, start, events);
      }
    }

    /** A key-down: the key is pressed and held, and so is each action whose keys contain it. */
    method KeyDown(k: Key)
      modifies this
      ensures keyMappings == old(keyMappings)
      ensures Current() == ApplyEvent(keyMappings, old(Current()), KeyDownEvent(k))
      ensures IsKeyPressed(k) && IsKeyHeld(k)
      ensures forall a :: a in keyMappings && k in keyMappings[a] ==> IsActionPressed(a) && IsActionHeld(a)
    {
      keysPressedThisFrame := keysPressedThisFrame + [k];
      keysHeld := keysHeld + {k};
      var pressed, held, todo := actionsPressedThisFrame, actionsHeld, keyMappings.Keys;
      while todo != {}
        invariant todo <= keyMappings.Keys
        invariant pressed == actionsPressedThisFrame + (MappedTo(keyMappings, k) - todo)
        invariant held == actionsHeld + (MappedTo(keyMappings, k) - todo)
        decreases todo
      {
        var action :| action in todo;
        if k in keyMappings[action] {
          pressed, held := pressed + {action}, held + {action};
        }
        todo := todo - {action};
      }
      actionsPressedThisFrame, actionsHeld := pressed, held;
    }

    /** A key-up: the key is released, and so is each of its actions none of whose keys is still held. */
    method KeyUp(k: Key)
      modifies this
      ensures keyMappings == old(keyMappings)
      ensures Current() == ApplyEvent(keyMappings, old(Current()), KeyUpEvent(k))
      ensures !IsKeyHeld(k)
      ensures forall j :: j != k ==> (IsKeyHeld(j) <==> old(IsKeyHeld(j)))
    {
      keysHeld := keysHeld - {k};
      var held, todo := actionsHeld, keyMappings.Keys;
      while todo != {}
        invariant todo <= keyMappings.Keys
        invariant held == actionsHeld - (Released(keyMappings, k, keysHeld) - todo)
        decreases todo
      {
        var action :| action in todo;
        if k in keyMappings[action] && !AnyHeld(keyMappings[action], keysHeld) {
          held := held - {action};
        }
        todo := todo - {action};
      }
      actionsHeld := held;
    }

    function IsActionPressed(action: InputAction): bool
      reads this
    {
      action in actionsPressedThisFrame
    }

    /** Under the held invariant, an action is held exactly when one of its keys is. */
    function IsActionHeld(action: InputAction): (r: bool)
      reads this
      ensures Consistent() ==> (r <==> action in keyMappings && AnyHeld(keyMappings[action], keysHeld))
    {
      action in actionsHeld
    }

    function IsKeyPressed(key: Key): bool
      reads this
    {
      key in keysPressedThisFrame
    }

    function IsKeyHeld(key: Key): bool
      reads this
    {
      key in keysHeld
    }

    /** Replaces the keys of one action; a single key becomes a one-element list. */
    method RemapKey(action: InputAction, newKeys: KeysArg)
      modifies this
      ensures keyMappings == old(keyMappings)[action := KeysOf(newKeys)]
      ensures GetMapping(action) == KeysOf(newKeys)
      ensures forall b :: b != action ==> GetMapping(b) == old(GetMapping(b))
      ensures Current() == old(Current())
    {
      keyMappings := keyMappings[action := KeysOf(newKeys)];
    }

    /** The keys of an action; none for an action the table does not list. */
    function GetMapping(action: InputAction): (r: seq<Key>)
      reads this
      ensures action in keyMappings ==> r == keyMappings[action]
      ensures action !in keyMappings ==> r == []
    {
      if action in keyMappings then keyMappings[action] else []
    }

    /** Builder controls: `any` is true while either control is held. */
    function GetPlayer1Input(): (r: P1Input)
      reads this
      ensures r.any <==> r.left || r.right
      ensures r.left == IsActionHeld(P1Left) && r.right == IsActionHeld(P1Right)
      ensures r.leftPressed == IsActionPressed(P1Left) && r.rightPressed == IsActionPressed(P1Right)
      ensures Consistent() ==>
        (r.left <==> AnyHeld(GetMapping(P1Left), keysHeld)) &&
        (r.right <==> AnyHeld(GetMapping(P1Right), keysHeld)) &&
        (r.any <==> AnyHeld(GetMapping(P1Left), keysHeld) || AnyHeld(GetMapping(P1Right), keysHeld))
    {
      P1Input(IsActionHeld(P1Left), IsActionHeld(P1Right),
              IsActionPressed(P1Left), IsActionPressed(P1Right),
              IsActionHeld(P1Left) || IsActionHeld(P1Right))
    }

    /** Wrapper control: `pressed` is this frame's edge, `held` the level. */
    function GetPlayer2Input(): (r: P2Input)
      reads this
      ensures r.pressed == IsActionPressed(P2Action) && r.held == IsActionHeld(P2Action)
      ensures Consistent() ==> (r.held <==> AnyHeld(GetMapping(P2Action), keysHeld))
    {
      P2Input(IsActionPressed(P2Action), IsActionHeld(P2Action))
    }

    /** Foreman controls are held states. */
    function GetPlayer4Input(): (r: P4Input)
      reads this
      ensures r.left == IsActionHeld(P4Left) && r.right == IsActionHeld(P4Right)
      ensures Consistent() ==>
        (r.left <==> AnyHeld(GetMapping(P4Left), keysHeld)) &&
        (r.right <==> AnyHeld(GetMapping(P4Right), keysHeld))
    {
      P4Input(IsActionHeld(P4Left), IsActionHeld(P4Right))
    }

    /**
     * The directions whose action was pressed this frame, each once, in the
     * order UP, DOWN, LEFT, RIGHT.
     */
    method GetArrowKeysPressed() returns (arrows: seq<Arrow>)
      ensures forall d :: d in arrows <==> IsActionPressed(ArrowAction(d))
      ensures forall i, j :: 0 <= i < j < |arrows| ==> Rank(arrows[i]) < Rank(arrows[j])
    {
      arrows := [];
      if IsActionPressed(P3Up) {
        arrows := arrows + [Up];
      }
      if IsActionPressed(P3Down) {
        arrows := arrows + [Down];
      }
      if IsActionPressed(P3Left) {
        arrows := arrows + [Left];
      }
      if IsActionPressed(P3Right) {
        arrows := arrows + [Right];
      }
    }

    /** Decorator controls: per-direction edges and the direction list. */
    method GetPlayer3Input() returns (r: P3Input)
      ensures r.upPressed == IsActionPressed(P3Up) && r.downPressed == IsActionPressed(P3Down)
      ensures r.leftPressed == IsActionPressed(P3Left) && r.rightPressed == IsActionPressed(P3Right)
      ensures forall d :: d in r.keysPressed <==> IsActionPressed(ArrowAction(d))
      ensures forall i, j :: 0 <= i < j < |r.keysPressed| ==> Rank(r.keysPressed[i]) < Rank(r.keysPressed[j])
    {
      var arrows := GetArrowKeysPressed();
      r := P3Input(IsActionPressed(P3Up), IsActionPressed(P3Down),
                   IsActionPressed(P3Left), IsActionPressed(P3Right), arrows);
    }

    /** Everything one game tick reads: the confirm edge and the four players' queries. */
    method Snapshot() returns (f: FrameInput)
      ensures f.confirm == IsActionPressed(MenuConfirm)
      ensures f.p1 == GetPlayer1Input() && f.p2 == GetPlayer2Input() && f.p4 == GetPlayer4Input()
      ensures f.p3.upPressed == IsActionPressed(P3Up) && f.p3.downPressed == IsActionPressed(P3Down)
      ensures f.p3.leftPressed == IsActionPressed(P3Left) && f.p3.rightPressed == IsActionPressed(P3Right)
      ensures forall d :: d in f.p3.keysPressed <==> IsActionPressed(ArrowAction(d))
      ensures forall i, j :: 0 <= i < j < |f.p3.keysPressed| ==> Rank(f.p3.keysPressed[i]) < Rank(f.p3.keysPressed[j])
    {
      var p3 := GetPlayer3Input();
      f := FrameInput(IsActionPressed(MenuConfirm), GetPlayer1Input(), GetPlayer2Input(), p3, GetPlayer4Input());
    }
  }
}

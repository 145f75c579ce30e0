/**
 * Static game data: order tiers, the order catalog, arrow directions,
 * Foreman drift multipliers, game states and timing constants.
 */
module Config {

  /** Order difficulty tier; `Value` is the integer the catalog keys on. */
  datatype Tier = Easy | Standard | Nightmare {
    function Value(): int {
      match this
      case Easy => 1
      case Standard => 2
      case Nightmare => 3
    }
  }

  /** The four arrow directions of the Decorator's sequence. */
  datatype Arrow = Up | Down | Left | Right

  const ArrowDirections: seq<Arrow> := [Up, Down, Left, Right]

  /** The nine toys of the catalog; their texts are given by the functions of `Order`. */
  datatype Toy = Socks | Ball | Box | Robot | Doll | Bicycle | GrandPiano | TRex | Spaceship

  /** One orderable toy with its difficulty parameters. */
  datatype Order = Order(
    toy: Toy,
    arrows: nat,          // length of the Decorator's arrow sequence
    timeLimit: int,       // seconds of the action phase
    decayRate: real,      // Builder's quality-bar decay per second
    zoneSize: real)       // Wrapper's green-zone width
  {
    /** The toy's display name. */
    function Name(): string {
      match toy
      case Socks => "Socks"
      case Ball => "Ball"
      case Box => "Box"
      case Robot => "Robot"
      case Doll => "Doll"
      case Bicycle => "Bicycle"
      case GrandPiano => "Grand Piano"
      case TRex => "T-Rex"
      case Spaceship => "Spaceship"
    }

    /** What the elf says in the briefing. */
    function Dialog(): string {
      match toy
      case Socks => "Easy one! Just socks."
      case Ball => "Simple ball for little Timmy!"
      case Box => "Just a cardboard box. Easy!"
      case Robot => "Timmy wants a Robot!"
      case Doll => "Princess Sarah needs her doll!"
      case Bicycle => "One bicycle coming up!"
      case GrandPiano => "HE WANTS A GRAND PIANO!"
      case TRex => "A LIFE-SIZED T-REX! ARE YOU KIDDING ME?!"
      case Spaceship => "SHE WANTS A LIFE-SIZED SPACE ROCKET. MOVE IT!"
    }

    /** The asset key of the toy's sprites. */
    function ToyAsset(): string {
      match toy
      case Socks => "socks"
      case Ball => "ball"
      case Box => "box"
      case Robot => "robot"
      case Doll => "doll"
      case Bicycle => "bicycle"
      case GrandPiano => "piano"
      case TRex => "trex"
      case Spaceship => "spaceship"
    }
  }

  const OrdersPerTier: nat := 3

  /** The catalog: the three orders of each tier. */
  function Orders(t: Tier): (r: seq<Order>)
    ensures |r| == OrdersPerTier
    ensures forall o :: o in r ==> WellFormed(o)
  {
    match t
    case Easy => EasyOrders()
    case Standard => StandardOrders()
    case Nightmare => NightmareOrders()
  }

  function EasyOrders(): (r: seq<Order>)
    ensures |r| == OrdersPerTier
    ensures forall o :: o in r ==> WellFormed(o)
  {
    [Order(Socks, 4, 8, 0.3, 0.3),
     Order(Ball, 5, 8, 0.35, 0.28),
     Order(Box, 6, 9, 0.4, 0.26)]
  }

  function StandardOrders(): (r: seq<Order>)
    ensures |r| == OrdersPerTier
    ensures forall o :: o in r ==> WellFormed(o)
  {
    [Order(Robot, 10, 12, 0.7, 0.18),
     Order(Doll, 12, 13, 0.75, 0.16),
     Order(Bicycle, 15, 14, 0.8, 0.15)]
  }

  function NightmareOrders(): (r: seq<Order>)
    ensures |r| == OrdersPerTier
    ensures forall o :: o in r ==> WellFormed(o)
  {
    [Order(GrandPiano, 25, 18, 1.5, 0.05),
     Order(TRex, 30, 20, 1.8, 0.05),
     Order(Spaceship, 28, 19, 1.6, 0.06)]
  }

  /** What every catalog entry satisfies: all fields present and in range. */
  predicate WellFormed(o: Order) {
    |o.Name()| > 0 && |o.Dialog()| > 0 && |o.ToyAsset()| > 0 &&
    o.arrows > 0 && o.timeLimit > 0 &&
    0.0 < o.zoneSize <= 1.0 &&
    o.decayRate >= 0.3
  }

  /** `b` is strictly harder than `a` on every parameter. */
  predicate Harder(a: Order, b: Order) {
    b.zoneSize < a.zoneSize && a.arrows < b.arrows &&
    a.timeLimit < b.timeLimit && a.decayRate < b.decayRate
  }

  // Foreman drift multipliers per tier.
  const EasyDriftMultiplier: real := 1.0
  const StandardDriftMultiplier: real := 1.5
  const NightmareDriftMultiplier: real := 2.5

  datatype GameState = Menu | Briefing | Playing | Reveal | GameOver

  // Timing, in seconds.
  const BriefingDuration: int := 4
  const RevealDuration: int := 5

  /** The Builder must end at or above this quality. */
  const BuilderQualityLine: real := 0.5

  /** The parameter bands of each tier. */
  lemma TierBands(o: Order)
    ensures o in Orders(Easy) ==>
      o.zoneSize >= 0.26 && o.arrows <= 6 && o.timeLimit <= 9 && o.decayRate <= 0.4
    ensures o in Orders(Standard) ==>
      0.15 <= o.zoneSize <= 0.18 && 10 <= o.arrows <= 15 && 12 <= o.timeLimit <= 14 &&
      0.7 <= o.decayRate <= 0.8
    ensures o in Orders(Nightmare) ==>
      o.zoneSize <= 0.06 && o.arrows >= 25 && o.timeLimit >= 18 && o.decayRate >= 1.5
  {
  }

  /** Every order of a lower tier is easier, on every parameter, than every order of a higher one. */
  lemma TiersGrowHarder(t1: Tier, t2: Tier, a: Order, b: Order)
    requires t1.Value() < t2.Value()
    requires a in Orders(t1) && b in Orders(t2)
    ensures Harder(a, b)
  {
    TierBands(a);
    TierBands(b);
  }

  /** The tier integers are 1, 2, 3, in difficulty order. */
  lemma TierValues()
    ensures Easy.Value() == 1 && Standard.Value() == 2 && Nightmare.Value() == 3
    ensures Easy.Value() < Standard.Value() < Nightmare.Value()
  {
  }

  /** The drift multipliers follow the tier order. */
  lemma DriftOrdering()
    ensures EasyDriftMultiplier < StandardDriftMultiplier < NightmareDriftMultiplier
  {
  }

  lemma TimingConstants()
    ensures BriefingDuration > 0 && RevealDuration > 0
    ensures BuilderQualityLine == 0.5
  {
  }

  /** The direction list holds each direction exactly once, in the order UP, DOWN, LEFT, RIGHT. */
  lemma ArrowDirectionsComplete(a: Arrow)
    ensures a in ArrowDirections
    ensures |ArrowDirections| == 4
    ensures forall i, j :: 0 <= i < j < |ArrowDirections| ==> ArrowDirections[i] != ArrowDirections[j]
  {
  }
}

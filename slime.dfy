/** The scripted behaviour of one slime (src/Slime.ts): which fruit it
    heads for, when it wanders, how fights between slimes end, and the
    speed penalty for eating a kiwi.

    The game engine is abstract: the nearest apple and kiwi are given
    (absent when their group is empty), a movement command is returned
    instead of being sent to the physics engine, and every Math.random()
    draw is a parameter in [0, 1).  Distances are compared squared, which
    orders them as the Euclidean distance does. */
module SlimeBehavior {
  import opened Wrappers

  const GAME_WIDTH: real := 800.0
  const GAME_HEIGHT: real := 600.0
  const SLIME_MOVE_SPEED: real := 100.0
  const APPLE_DETECTION_RANGE: real := 150.0

  /** A wander target closer than this counts as reached. */
  const WANDER_REACHED_RADIUS: real := 10.0

  /** Factor applied to the speed multiplier by each kiwi eaten. */
  const KIWI_PENALTY: real := 0.9

  /** The texture key of the passive slime; texture keys double as the slime's type. */
  const PASSIVE_SLIME: string := "passiveSlime"

  datatype Vec2 = Vec2(x: real, y: real)

  datatype FruitKind = Apple | Kiwi

  /** A fruit the slime may head for, and where it is. */
  datatype Fruit = Fruit(kind: FruitKind, pos: Vec2)

  /** What the slime asks the physics engine to do: move towards
      `destination` at `speed`. */
  datatype Move = Move(destination: Vec2, speed: real)

  /** Which slime a fight destroys. */
  datatype Loser = NoLoser | ThisSlime | OtherSlime

  function SquaredDistance(a: Vec2, b: Vec2): (d: real)
    ensures d >= 0.0
    ensures a == b ==> d == 0.0
  {
    (a.x - b.x) * (a.x - b.x) + (a.y - b.y) * (a.y - b.y)
  }

  /** Comparing squared non-negative distances orders them as the
      distances themselves. */
  lemma SquaredOrderAgrees(d1: real, d2: real)
    requires 0.0 <= d1 && 0.0 <= d2
    ensures d1 < d2 <==> d1 * d1 < d2 * d2
  {
    if d1 < d2 {
      calc {
        d1 * d1;
      <= { MultiplyMonotone(d1, d1, d2); }
        d1 * d2;
      <  { MultiplyStrictlyMonotone(d2, d1, d2); }
        d2 * d2;
      }
    } else {
      calc {
        d2 * d2;
      <= { MultiplyMonotone(d2, d2, d1); }
        d2 * d1;
      <= { MultiplyMonotone(d1, d2, d1); }
        d1 * d1;
      }
    }
  }

  lemma MultiplyStrictlyMonotone(k: real, a: real, b: real)
    requires 0.0 < k && a < b
    ensures a * k < b * k
  {
  }

  lemma MultiplyMonotone(k: real, a: real, b: real)
    requires 0.0 <= k && a <= b
    ensures k * a <= k * b
  {
  }

  predicate InArena(p: Vec2)
  {
    0.0 <= p.x < GAME_WIDTH && 0.0 <= p.y < GAME_HEIGHT
  }

  /** A random point of the arena: (drawX * width, drawY * height). */
  function WanderPoint(drawX: real, drawY: real): (p: Vec2)
    requires 0.0 <= drawX < 1.0 && 0.0 <= drawY < 1.0
    ensures InArena(p)
  {
    Vec2(drawX * GAME_WIDTH, drawY * GAME_HEIGHT)
  }

  /** The fruit the slime considers: the nearer of the apple and the kiwi,
      the kiwi on a tie, the only one present, or none when both are absent. */
  function ClosestFruit(self: Vec2, apple: Option<Vec2>, kiwi: Option<Vec2>): (c: Option<Fruit>)
    ensures c.None? <==> apple.None? && kiwi.None?
    ensures c.Some? && c.value.kind == Apple ==> apple == Some(c.value.pos)
    ensures c.Some? && c.value.kind == Kiwi ==> kiwi == Some(c.value.pos)
    ensures apple.Some? && kiwi.Some? ==>
              (c.value.kind == Apple <==> SquaredDistance(self, apple.value) < SquaredDistance(self, kiwi.value))
  {
    if apple.None? && kiwi.None? then None
    else if apple.None? then Some(Fruit(Kiwi, kiwi.value))
    else if kiwi.None? then Some(Fruit(Apple, apple.value))
    else if SquaredDistance(self, apple.value) < SquaredDistance(self, kiwi.value) then Some(Fruit(Apple, apple.value))
    else Some(Fruit(Kiwi, kiwi.value))
  }

  /** The chosen fruit is no farther than any fruit present. */
  lemma ClosestFruitIsNearest(self: Vec2, apple: Option<Vec2>, kiwi: Option<Vec2>)
    requires apple.Some? || kiwi.Some?
    ensures apple.Some? ==> SquaredDistance(self, ClosestFruit(self, apple, kiwi).value.pos) <= SquaredDistance(self, apple.value)
    ensures kiwi.Some? ==> SquaredDistance(self, ClosestFruit(self, apple, kiwi).value.pos) <= SquaredDistance(self, kiwi.value)
  {
  }

  /** The fruit is close enough to chase: not farther than the detection range. */
  predicate WithinDetectionRange(self: Vec2, fruit: Vec2)
  {
    SquaredDistance(self, fruit) <= APPLE_DETECTION_RANGE * APPLE_DETECTION_RANGE
  }

  /** A new wander target is drawn when there is none or the slime has
      (nearly) reached it. */
  predicate NeedsNewWanderTarget(self: Vec2, wander: Option<Vec2>)
  {
    wander.None? || SquaredDistance(self, wander.value) < WANDER_REACHED_RADIUS * WANDER_REACHED_RADIUS
  }

  /** With d the Euclidean distance to the fruit, the squared test is the
      test "d is not greater than the detection range". */
  lemma DetectionRangeAgrees(self: Vec2, fruit: Vec2, d: real)
    requires 0.0 <= d && d * d == SquaredDistance(self, fruit)
    ensures WithinDetectionRange(self, fruit) <==> d <= APPLE_DETECTION_RANGE
  {
    SquaredOrderAgrees(APPLE_DETECTION_RANGE, d);
  }

  /** With d the Euclidean distance to the wander target, it is redrawn
      exactly when d is below the reached radius. */
  lemma WanderReachedAgrees(self: Vec2, target: Vec2, d: real)
    requires 0.0 <= d && d * d == SquaredDistance(self, target)
    ensures NeedsNewWanderTarget(self, Some(target)) <==> d < WANDER_REACHED_RADIUS
  {
    SquaredOrderAgrees(d, WANDER_REACHED_RADIUS);
  }

  /** With both fruits present and dA, dK their Euclidean distances, the
      apple is chosen exactly when dA < dK. */
  lemma ClosestFruitAgrees(self: Vec2, apple: Vec2, kiwi: Vec2, dA: real, dK: real)
    requires 0.0 <= dA && dA * dA == SquaredDistance(self, apple)
    requires 0.0 <= dK && dK * dK == SquaredDistance(self, kiwi)
    ensures ClosestFruit(self, Some(apple), Some(kiwi)).value.kind == Apple <==> dA < dK
  {
    SquaredOrderAgrees(dA, dK);
  }

  /** The speed multiplier after n kiwi penalties from the initial 1. */
  function KiwiMultiplier(n: nat): real
  {
    if n == 0 then 1.0 else KiwiMultiplier(n - 1) * KIWI_PENALTY
  }

  /** Penalties keep the multiplier in (0, 1]. */
  lemma {:induction false} KiwiMultiplierBounds(n: nat)
    ensures 0.0 < KiwiMultiplier(n) <= 1.0
  {
    if n > 0 {
      KiwiMultiplierBounds(n - 1);
    }
  }

  /** Every penalty makes the slime strictly slower. */
  lemma KiwiMultiplierDecreases(n: nat)
    ensures KiwiMultiplier(n + 1) < KiwiMultiplier(n)
  {
    KiwiMultiplierBounds(n);
  }

  /** The winner of a fight, decided by the colliding slime's handler from
      the two types and the draw `fightRate`. */
  function FightLoser(thisType: string, otherType: string, fightRate: real): (l: Loser)
    ensures l != NoLoser <==> thisType != otherType && fightRate > 0.5
    ensures l == ThisSlime ==> thisType == PASSIVE_SLIME
    ensures l == OtherSlime ==> thisType != PASSIVE_SLIME
  {
    if thisType == otherType then NoLoser
    else if fightRate > 0.5 then (if thisType == PASSIVE_SLIME then ThisSlime else OtherSlime)
    else NoLoser
  }

  /** Between a passive and a non-passive slime, a fight destroys the
      passive one, whichever of the two handles the collision. */
  lemma PassiveSlimeLoses(passiveType: string, otherType: string, fightRate: real)
    requires passiveType == PASSIVE_SLIME && otherType != PASSIVE_SLIME && fightRate > 0.5
    ensures FightLoser(passiveType, otherType, fightRate) == ThisSlime
    ensures FightLoser(otherType, passiveType, fightRate) == OtherSlime
  {
  }

  class Slime {
    /** Position, owned by the physics engine. */
    var x: real
    var y: real
    var wanderTarget: Option<Vec2>
    var velocityMultiplier: real
    const slimeType: string
    /** Whether the engine has given this slime a physics body. */
    var hasBody: bool
    /** Set when the slime has been destroyed; destroying also removes the body. */
    var destroyed: bool

    /** Number of kiwi penalties so far. */
    ghost var penalties: nat

    ghost predicate Valid()
      reads this
    {
      velocityMultiplier == KiwiMultiplier(penalties) &&
      wanderTarget.Some? && InArena(wanderTarget.value)
    }

    function Position(): Vec2
      reads this
    {
      Vec2(x, y)
    }

    /** `texture` is the slime's type; the draws place the first wander target. */
    constructor(x0: real, y0: real, texture: string, drawX: real, drawY: real)
      requires 0.0 <= drawX < 1.0 && 0.0 <= drawY < 1.0
      ensures Valid()
      ensures x == x0 && y == y0 && slimeType == texture
      ensures wanderTarget == Some(WanderPoint(drawX, drawY))
      ensures velocityMultiplier == 1.0 && penalties == 0
      ensures hasBody && !destroyed
    {
      x, y := x0, y0;
      slimeType := texture;
      hasBody := true;
      destroyed := false;
      wanderTarget := Some(WanderPoint(drawX, drawY));
      velocityMultiplier := 1.0;
      penalties := 0;
    }

    function GetSlimeType(): string
    {
      slimeType
    }

    method ApplyKiwiPenalty()
      requires Valid()
      modifies this`velocityMultiplier, this`penalties
      ensures Valid() && penalties == old(penalties) + 1
      ensures velocityMultiplier == old(velocityMultiplier) * KIWI_PENALTY
      ensures 0.0 < velocityMultiplier < old(velocityMultiplier)
    {
      KiwiMultiplierDecreases(penalties);
      KiwiMultiplierBounds(penalties + 1);
      velocityMultiplier := velocityMultiplier * KIWI_PENALTY;
      penalties := penalties + 1;
    }

    /** The speed `Update` moves at. */
    function MoveSpeed(): (s: real)
      reads this
      requires Valid()
      ensures 0.0 < s <= SLIME_MOVE_SPEED
      ensures s == SLIME_MOVE_SPEED * KiwiMultiplier(penalties)
    {
      KiwiMultiplierBounds(penalties);
      SLIME_MOVE_SPEED * velocityMultiplier
    }

    /** A collision with `other`, whose `fightRate` draw (taken only when
        the types differ) decides whether the loser named by FightLoser is
        destroyed. */
    method HandleSlimeCollision(other: Slime, fightRate: real)
      requires 0.0 <= fightRate < 1.0
      modifies this`destroyed, this`hasBody, other`destroyed, other`hasBody
      ensures FightLoser(slimeType, other.slimeType, fightRate) == ThisSlime ==>
                destroyed && !hasBody &&
                other.destroyed == old(other.destroyed) && other.hasBody == old(other.hasBody)
      ensures FightLoser(slimeType, other.slimeType, fightRate) == OtherSlime ==>
                other.destroyed && !other.hasBody &&
                destroyed == old(destroyed) && hasBody == old(hasBody)
      ensures FightLoser(slimeType, other.slimeType, fightRate) == NoLoser ==>
                destroyed == old(destroyed) && hasBody == old(hasBody) &&
                other.destroyed == old(other.destroyed) && other.hasBody == old(other.hasBody)
    {
      if slimeType == other.GetSlimeType() {
        return;
      }
      if fightRate > 0.5 {
        if slimeType == PASSIVE_SLIME {
          destroyed, hasBody := true, false;
        } else {
          other.destroyed, other.hasBody := true, false;
        }
      }
    }

    /** One frame of behaviour given the nearest apple and kiwi; the draws
        are used only if a new wander target is needed.  Returns the
        movement command, none when the slime has no body. */
    method Update(apple: Option<Vec2>, kiwi: Option<Vec2>, drawX: real, drawY: real) returns (move: Option<Move>)
      requires Valid()
      requires 0.0 <= drawX < 1.0 && 0.0 <= drawY < 1.0
      modifies this`wanderTarget
      ensures Valid()
      ensures !hasBody ==> move.None? && wanderTarget == old(wanderTarget)
      ensures hasBody ==> move.Some? && move.value.speed == MoveSpeed()
      ensures var c := ClosestFruit(Position(), apple, kiwi);
              hasBody && c.None? ==>
                move.value.destination == old(wanderTarget).value && wanderTarget == old(wanderTarget)
      ensures var c := ClosestFruit(Position(), apple, kiwi);
              hasBody && c.Some? && WithinDetectionRange(Position(), c.value.pos) ==>
                move.value.destination == c.value.pos && wanderTarget == old(wanderTarget)
      ensures var c := ClosestFruit(Position(), apple, kiwi);
              hasBody && c.Some? && !WithinDetectionRange(Position(), c.value.pos) ==>
                wanderTarget == (if NeedsNewWanderTarget(Position(), old(wanderTarget))
                                 then Some(WanderPoint(drawX, drawY)) else old(wanderTarget)) &&
                move.value.destination == wanderTarget.value
    {
      if !hasBody {
        return None;
      }
      var speed := SLIME_MOVE_SPEED * velocityMultiplier;
      if apple.None? && kiwi.None? {
        return Some(Move(wanderTarget.value, speed));
      }
      var self := Vec2(x, y);
      var closestFruit: Vec2;
      if apple.None? {
        closestFruit := kiwi.value;
      } else if kiwi.None? {
        closestFruit := apple.value;
      } else {
        var distToApple := SquaredDistance(self, apple.value);
        var distToKiwi := SquaredDistance(self, kiwi.value);
        closestFruit := if distToApple < distToKiwi then apple.value else kiwi.value;
      }
      var distanceToClosestFruit := SquaredDistance(self, closestFruit);
      if distanceToClosestFruit > APPLE_DETECTION_RANGE * APPLE_DETECTION_RANGE {
        if wanderTarget.None? || SquaredDistance(self, wanderTarget.value) < WANDER_REACHED_RADIUS * WANDER_REACHED_RADIUS {
          wanderTarget := Some(WanderPoint(drawX, drawY));
        }
        move := Some(Move(wanderTarget.value, speed));
      } else {
        move := Some(Move(closestFruit, speed));
      }
    }
  }

  /** After n kiwis a slime moves at SLIME_MOVE_SPEED * 0.9^n. */
  lemma SpeedAfterPenalties(s: Slime)
    requires s.Valid()
    ensures s.MoveSpeed() == SLIME_MOVE_SPEED * KiwiMultiplier(s.penalties)
    ensures s.MoveSpeed() > SLIME_MOVE_SPEED * KiwiMultiplier(s.penalties + 1)
  {
  }
}

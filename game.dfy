/** Entities of the falling-ball game (src/game.rs): players, balls, their
    constants and their per-frame behaviour.

    Positions are mathematical reals rather than 32-bit floats. The two
    process-wide flags of the game (the pause flag and the difficulty) are
    passed in as parameters; the main loop keeps them in its context. */
module Game {

  /** Rust's i8 and i32: fields of these types may not leave the range, so
      every method that changes one requires that the result fits. */
  type int8 = x: int | -0x80 <= x < 0x80
  type int32 = x: int | -0x8000_0000 <= x < 0x8000_0000

  const MaxHealth: int8 := 3
  const DefaultPlayerSize: Size := Size(90.0, 70.0)
  const DefaultPlayerY: real := 360.0
  const DefaultPlayerHealth: int8 := 3
  const DefaultPlayerSpeed: real := 5.0
  const DefaultBallRadius: real := 30.0

  datatype Vec2 = Vec2(x: real, y: real)
  datatype Size = Size(width: real, height: real)

  datatype BallType = Normal | Poisonous | Regeneration

  /** Whether a player's move-left and move-right keys are held this frame. */
  datatype Keys = Keys(left: bool, right: bool)

  /** The value of a player's fields (its key bindings are not modelled). */
  datatype PlayerState = PlayerState(position: Vec2, number: int, size: Size, health: int, score: int)

  /** The value of a ball's fields. */
  datatype BallState = BallState(position: Vec2, radius: real, ballType: BallType, index: nat)

  /** Health after adding `n`: the sum, cut off at MaxHealth. There is no lower bound. */
  function ClampHealth(health: int, n: int): (r: int)
    ensures r <= MaxHealth && r <= health + n
    ensures r == MaxHealth || r == health + n
  {
    var sum := health + n;
    if sum > MaxHealth then MaxHealth else sum
  }

  /** Where a player stands after one frame: one speed step left or right per
      held key, nothing while paused, and no clamping to the playfield. */
  function Moved(position: Vec2, paused: bool, keys: Keys): (r: Vec2)
    ensures r.y == position.y
    ensures paused || keys.left == keys.right ==> r == position
    ensures !paused && keys.right && !keys.left ==> r.x == position.x + DefaultPlayerSpeed
    ensures !paused && keys.left && !keys.right ==> r.x == position.x - DefaultPlayerSpeed
  {
    if paused then position
    else
      var afterLeft := if keys.left then position.x - DefaultPlayerSpeed else position.x;
      var afterRight := if keys.right then afterLeft + DefaultPlayerSpeed else afterLeft;
      Vec2(afterRight, position.y)
  }

  /** How far a ball falls in one unpaused frame. */
  function FallDistance(difficulty: int): (r: real)
    ensures difficulty >= 1 ==> r >= 1.5
  {
    3.0 * (difficulty as real / 2.0)
  }

  /** A ball after one frame: it falls while the game runs and nothing else
      about it changes. */
  function Fall(b: BallState, paused: bool, difficulty: int): (r: BallState)
    ensures r.position.x == b.position.x && r.radius == b.radius
    ensures r.ballType == b.ballType && r.index == b.index
    ensures paused ==> r == b
    ensures !paused ==> r.position.y - b.position.y == FallDistance(difficulty)
    ensures !paused && difficulty >= 1 ==> r.position.y > b.position.y
  {
    if paused then b
    else b.(position := b.position.(y := b.position.y + FallDistance(difficulty)))
  }

  /** The collision test of a ball against a player. The vertical test
      compares the player's rectangle with the ball's bounding square; the
      horizontal test asks that the ball's centre be right of the player's
      left edge and the ball's right extent be left of the player's right
      edge, so it is not symmetric. */
  predicate Collides(b: BallState, p: PlayerState) {
    && p.position.y < b.position.y + b.radius
    && p.position.y + p.size.height > b.position.y - b.radius
    && p.position.x < b.position.x
    && p.position.x + p.size.width > b.position.x + b.radius
  }

  /** Reference definition: the player's rectangle and the ball's bounding
      square overlap (the symmetric axis-aligned box test). */
  predicate BoxesOverlap(b: BallState, p: PlayerState) {
    && p.position.y < b.position.y + b.radius
    && p.position.y + p.size.height > b.position.y - b.radius
    && p.position.x < b.position.x + b.radius
    && p.position.x + p.size.width > b.position.x - b.radius
  }

  /** A detected collision is a real overlap of the boxes. */
  lemma CollisionImpliesOverlap(b: BallState, p: PlayerState)
    requires b.radius >= 0.0
    requires Collides(b, p)
    ensures BoxesOverlap(b, p)
  {
  }

  /** A ball whose centre is at or left of the player's left edge never
      collides with it, whatever the overlap. */
  lemma NoCollisionLeftOfEdge(b: BallState, p: PlayerState)
    requires b.position.x <= p.position.x
    ensures !Collides(b, p)
  {
  }

  /** A ball centred on a player's left edge, well inside it vertically, is
      not detected. */
  lemma OverlapMissedOnLeftEdge()
    ensures var p := PlayerState(Vec2(150.0, DefaultPlayerY), 1, DefaultPlayerSize, 3, 0);
            var b := BallState(Vec2(150.0, 395.0), DefaultBallRadius, Normal, 0);
            BoxesOverlap(b, p) && !Collides(b, p)
  {
  }

  /** A player, updated in place by the main loop. */
  class Player {
    var position: Vec2
    var number: int8
    var size: Size
    var health: int8
    var score: int32

    function State(): (r: PlayerState)
      reads this
    {
      PlayerState(position, number, size, health, score)
    }

    /** A new player has full health, no score and the default size. */
    constructor (position: Vec2, number: int8)
      ensures State() == PlayerState(position, number, DefaultPlayerSize, DefaultPlayerHealth, 0)
    {
      this.position := position;
      this.number := number;
      this.size := DefaultPlayerSize;
      this.health := DefaultPlayerHealth;
      this.score := 0;
    }

    method SetPosition(newPosition: Vec2)
      modifies this
      ensures State() == old(State()).(position := newPosition)
    {
      position := newPosition;
    }

    method SetHealth(newHealth: int8)
      modifies this
      ensures State() == old(State()).(health := newHealth)
    {
      health := newHealth;
    }

    method AddHealth(n: int8)
      requires -0x80 <= health + n < 0x80
      modifies this
      ensures health <= MaxHealth
      ensures State() == old(State()).(health := ClampHealth(old(health), n))
    {
      health := health + n;
      if health > MaxHealth {
        health := MaxHealth;
      }
    }

    method RemoveHealth(n: int8)
      requires -0x80 <= health - n < 0x80
      modifies this
      ensures State() == old(State()).(health := old(health) - n)
    {
      health := health - n;
    }

    method AddScore(n: int32)
      requires -0x8000_0000 <= score + n < 0x8000_0000
      modifies this
      ensures State() == old(State()).(score := old(score) + n)
    {
      score := score + n;
    }

    method RemoveScore(n: int32)
      requires -0x8000_0000 <= score - n < 0x8000_0000
      modifies this
      ensures State() == old(State()).(score := old(score) - n)
    {
      score := score - n;
    }

    /** One frame of movement under the given pause flag and key states. */
    method OnFrame(paused: bool, keys: Keys)
      modifies this
      ensures State() == old(State()).(position := Moved(old(position), paused, keys))
    {
      var newPosition := position;
      if !paused {
        if keys.left {
          newPosition := newPosition.(x := newPosition.x - DefaultPlayerSpeed);
        }
        if keys.right {
          newPosition := newPosition.(x := newPosition.x + DefaultPlayerSpeed);
        }
      }
      SetPosition(newPosition);
    }
  }

  /** A falling ball. `index` is the position it was given at creation; it is
      never renumbered. */
  class Ball {
    var position: Vec2
    var radius: real
    var ballType: BallType
    var index: nat

    function State(): (r: BallState)
      reads this
    {
      BallState(position, radius, ballType, index)
    }

    /** A new ball always has the default radius. */
    constructor (position: Vec2, ballType: BallType, index: nat)
      ensures State() == BallState(position, DefaultBallRadius, ballType, index)
    {
      this.position := position;
      this.radius := DefaultBallRadius;
      this.ballType := ballType;
      this.index := index;
    }

    method SetPosition(newPosition: Vec2)
      modifies this
      ensures State() == old(State()).(position := newPosition)
    {
      position := newPosition;
    }

    predicate CheckCollision(player: Player)
      reads this, player
    {
      Collides(State(), player.State())
    }

    /** One frame of falling under the given pause flag and difficulty. */
    method OnFrame(paused: bool, difficulty: int32)
      modifies this
      ensures State() == Fall(old(State()), paused, difficulty)
    {
      var newPosition := position;
      if !paused {
        newPosition := newPosition.(y := newPosition.y + 3.0 * (difficulty as real / 2.0));
      }
      SetPosition(newPosition);
    }
  }

  /** The values of a sequence of players, element by element. */
  function PlayerStates(ps: seq<Player>): (r: seq<PlayerState>)
    reads set p | p in ps
  {
    seq(|ps|, j requires 0 <= j < |ps| reads set p | p in ps => ps[j].State())
  }

  /** The values of a sequence of balls, element by element. */
  function BallStates(bs: seq<Ball>): (r: seq<BallState>)
    reads set b | b in bs
  {
    seq(|bs|, j requires 0 <= j < |bs| reads set b | b in bs => bs[j].State())
  }
}

/** One iteration of the game's frame loop (src/main.rs): the Escape pause
    toggle with its latch, the ball pass (fall, collide, apply effects,
    record indices to delete), the player pass, and the deletion of the
    recorded balls. Rendering and input polling are left out; the keys of a
    frame arrive as an `Input` value. */
module MainLoop {
  import opened Game

  /** The pause flag and the latch that remembers a toggle in the last frame. */
  datatype PauseState = PauseState(paused: bool, escapeLatch: bool)

  /** Everything one frame reads and writes, as values. */
  datatype GameState = GameState(
    paused: bool,
    escapeLatch: bool,
    difficulty: int,
    balls: seq<BallState>,
    players: seq<PlayerState>)

  /** The keys of one frame: whether Escape went down this frame (a key
      press is reported once, in the frame it goes down, however long it is
      held), and each player's held move keys in player order. */
  datatype Input = Input(escape: bool, keys: seq<Keys>)

  /** After the ball pass: the players, and the ball indices recorded for deletion. */
  datatype Phase = Phase(players: seq<PlayerState>, deleted: seq<nat>)

  /** Removing recorded indices one after the other either leaves the
      remaining elements or stops at the first index that is out of range
      (where the program panics). */
  datatype Removal<T> = Removed(rest: seq<T>) | OutOfRange(index: nat, len: nat)

  /** The outcome of a frame: the next state, or the panic of a removal. */
  datatype FrameResult = Continued(state: GameState) | Panicked(index: nat, len: nat)

  predicate Distinct<T(==)>(s: seq<T>) {
    forall a, b :: 0 <= a < b < |s| ==> s[a] != s[b]
  }

  /** The state before the first frame, for a screen of the given width. */
  function InitialState(screenWidth: real): (r: GameState)
    ensures |r.players| == 2 && |r.balls| == 1
    ensures HasHeadroom(r)
  {
    GameState(
      false, false, 1,
      [BallState(Vec2(80.0, 50.0), DefaultBallRadius, Normal, 0)],
      [PlayerState(Vec2(150.0, DefaultPlayerY), 1, DefaultPlayerSize, DefaultPlayerHealth, 0),
       PlayerState(Vec2(screenWidth - 150.0 - DefaultPlayerSize.width, DefaultPlayerY + 120.0), 2,
                   DefaultPlayerSize, DefaultPlayerHealth, 0)])
  }

  /** The Escape toggle: the pause flag flips exactly when Escape is pressed
      and the latch is clear, and the latch afterwards records whether it
      flipped. */
  function PauseToggle(s: PauseState, escape: bool): (r: PauseState)
    ensures r.paused != s.paused <==> escape && !s.escapeLatch
    ensures r.escapeLatch <==> r.paused != s.paused
  {
    if escape && !s.escapeLatch then PauseState(!s.paused, true)
    else PauseState(s.paused, false)
  }

  /** What a ball of the given type does to a player it hits. */
  function Effect(t: BallType, p: PlayerState): (r: PlayerState)
    ensures r.position == p.position && r.size == p.size && r.number == p.number
    ensures t == Normal ==> r.score == p.score + 10 && r.health == p.health
    ensures t == Poisonous ==> r.score == p.score - 50 && r.health == p.health - 1
    ensures t == Regeneration ==> r.score == p.score + 10 && r.health == ClampHealth(p.health, 1)
    ensures r.health <= if p.health < MaxHealth then MaxHealth as int else p.health
  {
    match t
    case Normal => p.(score := p.score + 10)
    case Poisonous => p.(score := p.score - 50, health := p.health - 1)
    case Regeneration => p.(score := p.score + 10, health := ClampHealth(p.health, 1))
  }

  /** A player after a ball has been tested against it. */
  function Hit(b: BallState, p: PlayerState): (r: PlayerState)
    ensures r.position == p.position && r.size == p.size && r.number == p.number
    ensures !Collides(b, p) ==> r == p
    ensures Collides(b, p) ==> r == Effect(b.ballType, p)
  {
    if Collides(b, p) then Effect(b.ballType, p) else p
  }

  /** All players after a ball has been tested against each of them. */
  function HitAll(b: BallState, ps: seq<PlayerState>): (r: seq<PlayerState>)
    ensures |r| == |ps|
  {
    seq(|ps|, j requires 0 <= j < |ps| => Hit(b, ps[j]))
  }

  /** The entries a ball adds to the deletion list: its stored index, once
      for every player it collides with. */
  function Recorded(b: BallState, ps: seq<PlayerState>): (r: seq<nat>)
    ensures |r| <= |ps|
    ensures forall x :: x in r ==> x == b.index
    ensures r != [] <==> exists j :: 0 <= j < |ps| && Collides(b, ps[j])
  {
    if ps == [] then []
    else
      var last := ps[|ps| - 1];
      Recorded(b, ps[..|ps| - 1]) + if Collides(b, last) then [b.index] else []
  }

  /** All balls after falling for one frame. */
  function FallAll(bs: seq<BallState>, paused: bool, difficulty: int): (r: seq<BallState>)
    ensures |r| == |bs|
    ensures forall j :: 0 <= j < |bs| ==> r[j].index == bs[j].index && r[j].ballType == bs[j].ballType
  {
    seq(|bs|, j requires 0 <= j < |bs| => Fall(bs[j], paused, difficulty))
  }

  /** The ball pass: each ball in turn falls and is then tested against every
      player, whose positions are those from before the player pass. */
  function BallPhase(bs: seq<BallState>, ps: seq<PlayerState>, paused: bool, difficulty: int): (r: Phase)
    ensures |r.players| == |ps|
  {
    if bs == [] then Phase(ps, [])
    else BallStep(BallPhase(bs[..|bs| - 1], ps, paused, difficulty), Fall(bs[|bs| - 1], paused, difficulty))
  }

  /** One ball's turn in the ball pass, after it has fallen: it is tested
      against every player and its recorded entries are appended. */
  function BallStep(prev: Phase, b: BallState): (r: Phase)
    ensures |r.players| == |prev.players|
  {
    Phase(HitAll(b, prev.players), prev.deleted + Recorded(b, prev.players))
  }

  /** All players after moving for one frame. */
  function MoveAll(ps: seq<PlayerState>, paused: bool, keys: seq<Keys>): (r: seq<PlayerState>)
    requires |keys| == |ps|
    ensures |r| == |ps|
  {
    seq(|ps|, j requires 0 <= j < |ps| => ps[j].(position := Moved(ps[j].position, paused, keys[j])))
  }

  function Remove<T>(s: seq<T>, i: nat): (r: seq<T>)
    requires i < |s|
    ensures |r| == |s| - 1
    ensures forall j :: 0 <= j < i ==> r[j] == s[j]
    ensures forall j :: i <= j < |r| ==> r[j] == s[j + 1]
  {
    s[..i] + s[i + 1..]
  }

  /** Removes the recorded indices in order; each removal shifts the later
      elements down and does not adjust the indices still to come. */
  function RemoveAll<T>(s: seq<T>, idxs: seq<nat>): (r: Removal<T>)
    ensures r.Removed? ==> |r.rest| == |s| - |idxs|
    ensures r.Removed? ==> multiset(r.rest) <= multiset(s)
    ensures r.OutOfRange? ==> r.index in idxs && r.len < |s| + 1 && r.index >= r.len
    decreases |idxs|
  {
    if idxs == [] then Removed(s)
    else if idxs[0] >= |s| then OutOfRange(idxs[0], |s|)
    else
      var i := idxs[0];
      assert s == s[..i] + [s[i]] + s[i + 1..];
      RemoveAll(Remove(s, i), idxs[1..])
  }

  /** One frame of the loop. */
  function Advance(s: GameState, input: Input): (r: FrameResult)
    requires |input.keys| == |s.players|
    ensures r.Continued? ==> r.state.difficulty == s.difficulty && |r.state.players| == |s.players|
    ensures r.Continued? ==> |r.state.balls| <= |s.balls|
    ensures r.Continued? ==> r.state.paused == PauseToggle(PauseState(s.paused, s.escapeLatch), input.escape).paused
    ensures r.Panicked? ==> r.index >= r.len
  {
    var pause := PauseToggle(PauseState(s.paused, s.escapeLatch), input.escape);
    var phase := BallPhase(s.balls, s.players, pause.paused, s.difficulty);
    var moved := MoveAll(phase.players, pause.paused, input.keys);
    var removal := RemoveAll(FallAll(s.balls, pause.paused, s.difficulty), phase.deleted);
    if removal.Removed? then Continued(GameState(pause.paused, pause.escapeLatch, s.difficulty, removal.rest, moved))
    else Panicked(removal.index, removal.len)
  }

  /** A player can take `n` more hits without its i32 score or i8 health
      overflowing (each hit changes the score by at most 50 and the health by
      at most 1). */
  predicate Headroom(p: PlayerState, n: nat) {
    && -0x8000_0000 + 50 * n <= p.score <= 0x7fff_ffff - 10 * n
    && -0x80 + n <= p.health <= 0x7e
    && -0x80 + n <= MaxHealth
  }

  /** Every player can take a hit from every ball of the frame. */
  predicate HasHeadroom(s: GameState) {
    forall j :: 0 <= j < |s.players| ==> Headroom(s.players[j], |s.balls|)
  }

  /** The effect dispatch of the ball pass, applied to a player object. */
  method ApplyEffect(player: Player, t: BallType)
    requires Headroom(player.State(), 1)
    modifies player
    ensures player.State() == Effect(t, old(player.State()))
  {
    match t {
      case Normal =>
        player.AddScore(10);
      case Poisonous =>
        player.RemoveScore(50);
        player.RemoveHealth(1);
      case Regeneration =>
        player.AddScore(10);
        player.AddHealth(1);
    }
  }

  /** The context of the frame loop: the pause flag, the difficulty, the
      Escape latch, the two players and the balls. */
  class Context {
    var paused: bool
    var escapeLatch: bool
    var difficulty: int32
    const players: seq<Player>
    var balls: seq<Ball>

    ghost predicate Valid()
      reads this
    {
      |players| == 2 && Distinct(players) && Distinct(balls)
    }

    ghost function Model(): GameState
      reads this, set p | p in players, set b | b in balls
    {
      GameState(paused, escapeLatch, difficulty, BallStates(balls), PlayerStates(players))
    }

    /** The setup before the loop: two players, one Normal ball, not paused. */
    constructor (screenWidth: real)
      ensures Valid() && Model() == InitialState(screenWidth)
    {
      var first := new Player(Vec2(150.0, DefaultPlayerY), 1);
      var second := new Player(Vec2(screenWidth - 150.0 - DefaultPlayerSize.width, DefaultPlayerY + 120.0), 2);
      var ball := new Ball(Vec2(80.0, 50.0), Normal, 0);
      players := [first, second];
      balls := [ball];
      paused := false;
      escapeLatch := false;
      difficulty := 1;
      new;
      assert PlayerStates(players) == InitialState(screenWidth).players;
      assert BallStates(balls) == InitialState(screenWidth).balls;
    }

    /** One frame. It reports false where the program would panic while
        deleting balls. */
    method Step(input: Input) returns (ok: bool)
      requires Valid() && |input.keys| == |players| && HasHeadroom(Model())
      modifies this, set p | p in players, set b | b in balls
      ensures Valid()
      ensures var next := Advance(old(Model()), input);
              ok == next.Continued? && (ok ==> Model() == next.state)
    {
      TogglePause(input.escape);
      ghost var s1 := Model();
      var toDelete := UpdateBalls();
      ghost var phase := BallPhase(s1.balls, s1.players, s1.paused, s1.difficulty);
      assert Model() == s1.(balls := FallAll(s1.balls, s1.paused, s1.difficulty), players := phase.players);
      MovePlayers(input.keys);
      ghost var s3 := Model();
      ok := DeleteBalls(toDelete);
      assert PlayerStates(players) == s3.players;
    }

    /** The Escape toggle. */
    method TogglePause(escape: bool)
      modifies this`paused, this`escapeLatch
      ensures var pause := PauseToggle(PauseState(old(paused), old(escapeLatch)), escape);
              Model() == old(Model()).(paused := pause.paused, escapeLatch := pause.escapeLatch)
    {
      if escape && !escapeLatch {
        paused := !paused;
        escapeLatch := true;
      } else {
        escapeLatch := false;
      }
    }

    /** The ball pass, returning the indices recorded for deletion. */
    method UpdateBalls() returns (toDelete: seq<nat>)
      requires Valid() && HasHeadroom(Model())
      modifies set b | b in balls, set p | p in players
      ensures var s := old(Model());
              var phase := BallPhase(s.balls, s.players, s.paused, s.difficulty);
              && BallStates(balls) == FallAll(s.balls, s.paused, s.difficulty)
              && PlayerStates(players) == phase.players
              && toDelete == phase.deleted
    {
      ghost var bs0 := BallStates(balls);
      ghost var ps0 := PlayerStates(players);
      PassStart();
      toDelete := BallPass(bs0, ps0);
      PassDone(bs0, ps0, BallPhase(bs0, ps0, paused, difficulty));
    }

    /** The loop over the balls, from the start of the pass to its end. */
    method BallPass(ghost bs0: seq<BallState>, ghost ps0: seq<PlayerState>) returns (toDelete: seq<nat>)
      requires InPass(bs0, ps0, 0, Phase(ps0, []), |balls|)
      modifies set b | b in balls, set p | p in players
      ensures InPass(bs0, ps0, |bs0|, BallPhase(bs0, ps0, paused, difficulty), 0)
      ensures toDelete == BallPhase(bs0, ps0, paused, difficulty).deleted
    {
      ghost var phase := Phase(ps0, []);
      toDelete := [];
      var n := |balls|;
      var i := 0;
      while i < n
        invariant i <= n && InPass(bs0, ps0, i, phase, n - i)
        invariant toDelete == phase.deleted
      {
        var recorded := BallTurn(i, bs0, ps0, phase, n - i - 1);
        toDelete := toDelete + recorded;
        phase := BallPhase(bs0[..i + 1], ps0, paused, difficulty);
        i := i + 1;
      }
      assert bs0[..n] == bs0;
    }

    lemma PassStart()
      requires Valid() && HasHeadroom(Model())
      ensures var ps0 := PlayerStates(players);
              InPass(BallStates(balls), ps0, 0, Phase(ps0, []), |balls|)
    {
      var bs0 := BallStates(balls);
      assert bs0[..0] == [];
      assert Fallen(bs0, 0, paused, difficulty) == bs0;
    }

    lemma PassDone(bs0: seq<BallState>, ps0: seq<PlayerState>, phase: Phase)
      requires InPass(bs0, ps0, |bs0|, phase, 0)
      ensures BallStates(balls) == FallAll(bs0, paused, difficulty)
      ensures phase == BallPhase(bs0, ps0, paused, difficulty)
      ensures PlayerStates(players) == phase.players
    {
      assert bs0[..|bs0|] == bs0;
      assert Fallen(bs0, |bs0|, paused, difficulty) == FallAll(bs0, paused, difficulty);
    }

    /** The state partway through the ball pass over `bs0` against `ps0`:
        the first `i` balls have fallen and met the players, which are those
        of `phase` and can still take `m` hits. */
    ghost predicate InPass(bs0: seq<BallState>, ps0: seq<PlayerState>, i: nat, phase: Phase, m: nat)
      reads this, set p | p in players, set b | b in balls
    {
      && i <= |balls| == |bs0| && Distinct(balls) && Distinct(players)
      && BallStates(balls) == Fallen(bs0, i, paused, difficulty)
      && phase == BallPhase(bs0[..i], ps0, paused, difficulty)
      && PlayerStates(players) == phase.players
      && forall j :: 0 <= j < |phase.players| ==> Headroom(phase.players[j], m)
    }

    /** The i-th ball's turn in the ball pass: it falls, then meets every
        player. */
    method BallTurn(i: nat, ghost bs0: seq<BallState>, ghost ps0: seq<PlayerState>, ghost phase: Phase, ghost m: nat)
        returns (recorded: seq<nat>)
      requires i < |balls| && InPass(bs0, ps0, i, phase, m + 1)
      modifies balls[i], set p | p in players
      ensures var next := BallPhase(bs0[..i + 1], ps0, paused, difficulty);
              InPass(bs0, ps0, i + 1, next, m) && next.deleted == phase.deleted + recorded
    {
      var ball := balls[i];
      FallBall(i, bs0);
      forall j | 0 <= j < |players|
        ensures Headroom(players[j].State(), 1)
      {
        assert players[j].State() == phase.players[j];
      }
      recorded := HitPlayers(ball);
      BallPhaseSnoc(bs0, ps0, paused, difficulty, i);
      HeadroomAfterStep(phase, ball.State(), m);
    }

    /** The i-th ball falls. */
    method FallBall(i: nat, ghost bs0: seq<BallState>)
      requires i < |balls| == |bs0| && Distinct(balls)
      requires BallStates(balls) == Fallen(bs0, i, paused, difficulty)
      modifies balls[i]
      ensures BallStates(balls) == Fallen(bs0, i + 1, paused, difficulty)
      ensures balls[i].State() == Fall(bs0[i], paused, difficulty)
    {
      ghost var before := BallStates(balls);
      var ball := balls[i];
      assert ball.State() == before[i] == bs0[i];
      ball.OnFrame(paused, difficulty);
      assert BallStates(balls) == before[i := ball.State()];
      FallenSnoc(bs0, i, paused, difficulty);
    }

    /** Tests one ball against every player and applies its effect to each
        player it hits. */
    method HitPlayers(ball: Ball) returns (recorded: seq<nat>)
      requires Distinct(players)
      requires forall j :: 0 <= j < |players| ==> Headroom(players[j].State(), 1)
      modifies set p | p in players
      ensures PlayerStates(players) == HitAll(ball.State(), old(PlayerStates(players)))
      ensures recorded == Recorded(ball.State(), old(PlayerStates(players)))
    {
      ghost var b := ball.State();
      ghost var before := PlayerStates(players);
      assert before[..0] == [];
      assert HitUpTo(b, before, 0) == before;
      recorded := [];
      var k := 0;
      while k < |players|
        invariant 0 <= k <= |players|
        invariant PlayerStates(players) == HitUpTo(b, before, k)
        invariant recorded == Recorded(b, before[..k])
      {
        assert PlayerStates(players)[k] == before[k];
        var hit := HitPlayer(ball, k);
        if hit {
          recorded := recorded + [ball.index];
        }
        RecordedSnoc(b, before, k);
        HitUpToSnoc(b, before, k);
        k := k + 1;
      }
      assert before[..|players|] == before;
      assert HitUpTo(b, before, |players|) == HitAll(b, before);
    }

    /** One ball against the k-th player: reports the collision and applies
        the ball's effect when there is one. */
    method HitPlayer(ball: Ball, k: nat) returns (hit: bool)
      requires k < |players| && Distinct(players)
      requires Headroom(PlayerStates(players)[k], 1)
      modifies players[k]
      ensures var p := old(PlayerStates(players))[k];
              && hit == Collides(ball.State(), p)
              && PlayerStates(players) == old(PlayerStates(players))[k := Hit(ball.State(), p)]
    {
      ghost var before := PlayerStates(players);
      var player := players[k];
      assert player.State() == before[k];
      hit := ball.CheckCollision(player);
      if hit {
        ApplyEffect(player, ball.ballType);
      }
      assert PlayerStates(players) == before[k := player.State()];
    }

    /** The player pass. */
    method MovePlayers(keys: seq<Keys>)
      requires Distinct(players) && |keys| == |players|
      modifies set p | p in players
      ensures Model() == old(Model()).(players := MoveAll(old(Model()).players, paused, keys))
    {
      ghost var before := PlayerStates(players);
      var k := 0;
      while k < |players|
        invariant 0 <= k <= |players|
        invariant forall j :: 0 <= j < k ==>
          players[j].State() == before[j].(position := Moved(before[j].position, paused, keys[j]))
        invariant forall j :: k <= j < |players| ==> players[j].State() == before[j]
      {
        players[k].OnFrame(paused, keys[k]);
        k := k + 1;
      }
      assert PlayerStates(players) == MoveAll(before, paused, keys);
    }

    /** Removes the recorded indices one after the other; false where a
        removal would be out of range. */
    method DeleteBalls(toDelete: seq<nat>) returns (ok: bool)
      requires Distinct(balls)
      modifies this`balls
      ensures Distinct(balls)
      ensures var r := RemoveAll(old(BallStates(balls)), toDelete);
              ok == r.Removed? && (ok ==> BallStates(balls) == r.rest)
    {
      ghost var target := RemoveAll(BallStates(balls), toDelete);
      var rest := balls;
      var k := 0;
      while k < |toDelete|
        invariant 0 <= k <= |toDelete|
        invariant Distinct(rest)
        invariant RemoveAll(BallStates(rest), toDelete[k..]) == target
      {
        var index := toDelete[k];
        RemoveAllUnfold(BallStates(rest), toDelete, k);
        if index >= |rest| {
          balls := rest;
          return false;
        }
        RemoveKeepsStates(rest, index);
        rest := Remove(rest, index);
        k := k + 1;
      }
      assert toDelete[k..] == [];
      balls := rest;
      ok := true;
    }
  }

  // ---------------------------------------------------------------------
  // Steps of the specification used by the methods above

  /** The balls partway through the ball pass: the first `i` have fallen. */
  function Fallen(bs: seq<BallState>, i: nat, paused: bool, difficulty: int): (r: seq<BallState>)
    ensures |r| == |bs|
  {
    seq(|bs|, j requires 0 <= j < |bs| => if j < i then Fall(bs[j], paused, difficulty) else bs[j])
  }

  /** The players partway through one ball's turn: the first `k` have been
      tested against the ball. */
  function HitUpTo(b: BallState, ps: seq<PlayerState>, k: nat): (r: seq<PlayerState>)
    ensures |r| == |ps|
  {
    seq(|ps|, j requires 0 <= j < |ps| => if j < k then Hit(b, ps[j]) else ps[j])
  }

  lemma HitUpToSnoc(b: BallState, ps: seq<PlayerState>, k: nat)
    requires k < |ps|
    ensures HitUpTo(b, ps, k)[k := Hit(b, ps[k])] == HitUpTo(b, ps, k + 1)
  {
  }

  lemma FallenSnoc(bs: seq<BallState>, i: nat, paused: bool, difficulty: int)
    requires i < |bs|
    ensures Fallen(bs, i, paused, difficulty)[i := Fall(bs[i], paused, difficulty)] == Fallen(bs, i + 1, paused, difficulty)
  {
  }

  lemma BallPhaseSnoc(bs: seq<BallState>, ps: seq<PlayerState>, paused: bool, difficulty: int, i: nat)
    requires i < |bs|
    ensures BallPhase(bs[..i + 1], ps, paused, difficulty)
         == BallStep(BallPhase(bs[..i], ps, paused, difficulty), Fall(bs[i], paused, difficulty))
  {
    assert bs[..i + 1][..i] == bs[..i];
  }

  /** A hit uses up at most one unit of headroom. */
  lemma HeadroomAfterStep(prev: Phase, b: BallState, m: nat)
    requires forall j :: 0 <= j < |prev.players| ==> Headroom(prev.players[j], m + 1)
    ensures forall j :: 0 <= j < |prev.players| ==> Headroom(BallStep(prev, b).players[j], m)
  {
  }

  lemma RecordedSnoc(b: BallState, ps: seq<PlayerState>, k: nat)
    requires k < |ps|
    ensures Recorded(b, ps[..k + 1]) == Recorded(b, ps[..k]) + if Collides(b, ps[k]) then [b.index] else []
  {
    assert ps[..k + 1][..k] == ps[..k];
  }

  lemma RemoveAllUnfold<T>(s: seq<T>, idxs: seq<nat>, k: nat)
    requires k < |idxs|
    ensures RemoveAll(s, idxs[k..])
         == if idxs[k] >= |s| then OutOfRange(idxs[k], |s|) else RemoveAll(Remove(s, idxs[k]), idxs[k + 1..])
  {
  }

  lemma RemoveKeepsStates(bs: seq<Ball>, i: nat)
    requires i < |bs| && Distinct(bs)
    ensures Distinct(Remove(bs, i))
    ensures BallStates(Remove(bs, i)) == Remove(BallStates(bs), i)
  {
  }

  // ---------------------------------------------------------------------
  // Properties of the frame

  /** Escape going down in two consecutive frames toggles the pause flag
      exactly once, whatever the latch was. */
  lemma EscapeTwiceTogglesOnce(s: PauseState)
    ensures PauseToggle(PauseToggle(s, true), true).paused == !s.paused
  {
  }

  /** The pause state after `n` frames in each of which Escape went down. */
  function EscapeEveryFrame(s: PauseState, n: nat): (r: PauseState)
    decreases n
  {
    if n == 0 then s else EscapeEveryFrame(PauseToggle(s, true), n - 1)
  }

  /** After 2m consecutive frames in each of which Escape went down, the
      pause flag is flipped exactly when m is odd. */
  lemma {:induction false} EscapeEveryFrameTogglesEveryOther(s: PauseState, m: nat)
    decreases m
    ensures EscapeEveryFrame(s, 2 * m).paused == (if m % 2 == 0 then s.paused else !s.paused)
  {
    if m > 0 {
      var twice := PauseToggle(PauseToggle(s, true), true);
      EscapeTwiceTogglesOnce(s);
      assert EscapeEveryFrame(s, 2 * m) == EscapeEveryFrame(twice, 2 * (m - 1));
      EscapeEveryFrameTogglesEveryOther(twice, m - 1);
    }
  }

  /** Over a ball pass each player's score moves by at most -50 or +10 per
      ball, its health drops by at most one per ball, and its health never
      rises above both its old value and MaxHealth. */
  lemma {:induction false} PhaseBounds(bs: seq<BallState>, ps: seq<PlayerState>, paused: bool, difficulty: int, j: nat)
    requires j < |ps|
    ensures var q := BallPhase(bs, ps, paused, difficulty).players[j];
            && ps[j].score - 50 * |bs| <= q.score <= ps[j].score + 10 * |bs|
            && (if ps[j].health < MaxHealth then ps[j].health else MaxHealth as int) - |bs| <= q.health
            && q.health <= if ps[j].health < MaxHealth then MaxHealth as int else ps[j].health
  {
    if bs != [] {
      PhaseBounds(bs[..|bs| - 1], ps, paused, difficulty, j);
    }
  }

  /** Headroom for |bs| + m hits before a pass over bs leaves headroom for m. */
  lemma HeadroomAfterPhase(bs: seq<BallState>, ps: seq<PlayerState>, paused: bool, difficulty: int, j: nat, m: nat)
    requires j < |ps| && Headroom(ps[j], |bs| + m)
    ensures Headroom(BallPhase(bs, ps, paused, difficulty).players[j], m)
  {
    PhaseBounds(bs, ps, paused, difficulty, j);
  }

  /** The ball pass changes only scores and health: positions, sizes and
      numbers stay. */
  lemma {:induction false} PhaseKeepsGeometry(bs: seq<BallState>, ps: seq<PlayerState>, paused: bool, difficulty: int, j: nat)
    requires j < |ps|
    ensures var q := BallPhase(bs, ps, paused, difficulty).players[j];
            q.position == ps[j].position && q.size == ps[j].size && q.number == ps[j].number
  {
    if bs != [] {
      PhaseKeepsGeometry(bs[..|bs| - 1], ps, paused, difficulty, j);
    }
  }

  /** A player that no fallen ball collides with leaves the ball pass unchanged. */
  lemma {:induction false} UnhitPlayerUnchanged(bs: seq<BallState>, ps: seq<PlayerState>, paused: bool, difficulty: int, j: nat)
    requires j < |ps|
    requires forall i :: 0 <= i < |bs| ==> !Collides(Fall(bs[i], paused, difficulty), ps[j])
    ensures BallPhase(bs, ps, paused, difficulty).players[j] == ps[j]
  {
    if bs != [] {
      var front := bs[..|bs| - 1];
      assert forall i :: 0 <= i < |front| ==> front[i] == bs[i];
      UnhitPlayerUnchanged(front, ps, paused, difficulty, j);
    }
  }

  /** The positions in `ps` of the players a ball collides with. */
  function Hits(b: BallState, ps: seq<PlayerState>): (r: set<nat>) {
    set j: nat | j < |ps| && Collides(b, ps[j])
  }

  /** A ball adds one entry per player it collides with. */
  lemma {:induction false} RecordedCount(b: BallState, ps: seq<PlayerState>)
    ensures |Recorded(b, ps)| == |Hits(b, ps)|
  {
    if ps != [] {
      var n := |ps| - 1;
      var front := ps[..n];
      RecordedCount(b, front);
      assert Hits(b, ps) == Hits(b, front) + if Collides(b, ps[n]) then {n} else {};
      assert n !in Hits(b, front);
    }
  }

  /** The number of (ball, player) pairs that collide. */
  function PairCount(bs: seq<BallState>, ps: seq<PlayerState>): (r: nat) {
    if bs == [] then 0 else PairCount(bs[..|bs| - 1], ps) + |Hits(bs[|bs| - 1], ps)|
  }

  /** Collisions look only at positions and sizes, so a ball records against
      players whose geometry is unchanged what it would against the originals. */
  lemma {:induction false} RecordedUsesGeometry(b: BallState, ps: seq<PlayerState>, qs: seq<PlayerState>)
    requires |ps| == |qs|
    requires forall j :: 0 <= j < |ps| ==> ps[j].position == qs[j].position && ps[j].size == qs[j].size
    ensures Recorded(b, ps) == Recorded(b, qs)
  {
    if ps != [] {
      var n := |ps| - 1;
      RecordedUsesGeometry(b, ps[..n], qs[..n]);
    }
  }

  /** The ball pass records one entry per (fallen ball, player) pair that
      collides, the players taken as they stood before the pass. */
  lemma {:induction false} DeletedCount(bs: seq<BallState>, ps: seq<PlayerState>, paused: bool, difficulty: int)
    ensures |BallPhase(bs, ps, paused, difficulty).deleted| == PairCount(FallAll(bs, paused, difficulty), ps)
  {
    if bs != [] {
      var n := |bs| - 1;
      var prev := BallPhase(bs[..n], ps, paused, difficulty);
      var b := Fall(bs[n], paused, difficulty);
      DeletedCount(bs[..n], ps, paused, difficulty);
      forall j | 0 <= j < |ps|
        ensures prev.players[j].position == ps[j].position && prev.players[j].size == ps[j].size
      {
        PhaseKeepsGeometry(bs[..n], ps, paused, difficulty, j);
      }
      RecordedUsesGeometry(b, prev.players, ps);
      RecordedCount(b, ps);
      var fallen := FallAll(bs, paused, difficulty);
      assert fallen[..n] == FallAll(bs[..n], paused, difficulty);
    }
  }

  /** A ball that hits both players records its index twice. */
  lemma DoubleHitRecordedTwice(b: BallState, ps: seq<PlayerState>)
    requires |ps| == 2 && Collides(b, ps[0]) && Collides(b, ps[1])
    ensures Recorded(b, ps) == [b.index, b.index]
  {
  }

  /** Removing the recorded indices in order succeeds exactly when the k-th
      index is below the length left after k removals. */
  lemma {:induction false} RemoveAllSucceedsIff<T>(s: seq<T>, idxs: seq<nat>)
    ensures RemoveAll(s, idxs).Removed? <==> forall k :: 0 <= k < |idxs| ==> idxs[k] < |s| - k
  {
    if idxs != [] && idxs[0] < |s| {
      var rest := idxs[1..];
      RemoveAllSucceedsIff(Remove(s, idxs[0]), rest);
      assert forall k :: 1 <= k < |idxs| ==> idxs[k] == rest[k - 1];
    }
  }

  /** A frame that goes through keeps every player's health at or below
      MaxHealth if it was before. */
  lemma FrameKeepsHealthCap(s: GameState, input: Input)
    requires |input.keys| == |s.players|
    requires forall j :: 0 <= j < |s.players| ==> s.players[j].health <= MaxHealth
    ensures Advance(s, input).Continued? ==>
            forall j :: 0 <= j < |s.players| ==> Advance(s, input).state.players[j].health <= MaxHealth
  {
    var pause := PauseToggle(PauseState(s.paused, s.escapeLatch), input.escape);
    forall j | 0 <= j < |s.players|
      ensures BallPhase(s.balls, s.players, pause.paused, s.difficulty).players[j].health <= MaxHealth
    {
      PhaseBounds(s.balls, s.players, pause.paused, s.difficulty, j);
    }
  }

  /** Collisions use the players' positions from before the player pass: the
      move keys of a frame change no score, no health and no ball. */
  lemma KeysDoNotAffectScoring(s: GameState, escape: bool, keys1: seq<Keys>, keys2: seq<Keys>)
    requires |keys1| == |keys2| == |s.players|
    ensures var r1 := Advance(s, Input(escape, keys1));
            var r2 := Advance(s, Input(escape, keys2));
            && r1.Continued? == r2.Continued?
            && (r1.Continued? ==>
                  && r1.state.balls == r2.state.balls
                  && forall j :: 0 <= j < |s.players| ==>
                       r1.state.players[j].score == r2.state.players[j].score &&
                       r1.state.players[j].health == r2.state.players[j].health)
  {
  }

  /** Every ball left after a frame is one of the frame's balls after its
      fall, with its stored index unchanged. */
  lemma SurvivorsHaveFallen(s: GameState, input: Input)
    requires |input.keys| == |s.players|
    ensures var r := Advance(s, input);
            r.Continued? ==>
              forall x :: x in r.state.balls ==>
                exists i :: 0 <= i < |s.balls| && x == Fall(s.balls[i], r.state.paused, s.difficulty)
  {
    var r := Advance(s, input);
    if r.Continued? {
      var fallen := FallAll(s.balls, r.state.paused, s.difficulty);
      forall x | x in r.state.balls
        ensures exists i :: 0 <= i < |s.balls| && x == Fall(s.balls[i], r.state.paused, s.difficulty)
      {
        assert x in multiset(r.state.balls);
        assert x in fallen;
        var i :| 0 <= i < |fallen| && fallen[i] == x;
        assert x == Fall(s.balls[i], r.state.paused, s.difficulty);
      }
    }
  }

  /** The first frame never panics: the starting ball is left of player one
      and far above player two. */
  lemma FirstFrameKeepsBall(screenWidth: real, input: Input)
    requires |input.keys| == 2
    ensures Advance(InitialState(screenWidth), input).Continued?
    ensures |Advance(InitialState(screenWidth), input).state.balls| == 1
  {
    var s := InitialState(screenWidth);
    var pause := PauseToggle(PauseState(s.paused, s.escapeLatch), input.escape);
    var b := Fall(s.balls[0], pause.paused, s.difficulty);
    assert s.balls[..0] == [];
    assert !Collides(b, s.players[0]) && !Collides(b, s.players[1]);
    assert Recorded(b, s.players) == [];
    assert BallPhase(s.balls, s.players, pause.paused, s.difficulty).deleted == [];
  }

  /** A lone ball that lands on both players in the same frame makes the
      program panic: its index is recorded twice, and the second removal
      finds the list empty (index 0, the source's only ball) or the first
      one is already out of range. */
  lemma OneBallDoubleHitPanics(s: GameState, input: Input)
    requires |input.keys| == |s.players| == 2 && |s.balls| == 1
    requires var pause := PauseToggle(PauseState(s.paused, s.escapeLatch), input.escape);
             var b := Fall(s.balls[0], pause.paused, s.difficulty);
             Collides(b, s.players[0]) && Collides(b, s.players[1])
    ensures var i := s.balls[0].index;
            Advance(s, input) == if i == 0 then Panicked(0, 0) else Panicked(i, 1)
  {
    var pause := PauseToggle(PauseState(s.paused, s.escapeLatch), input.escape);
    var b := Fall(s.balls[0], pause.paused, s.difficulty);
    var i := b.index;
    assert s.balls[..0] == [];
    DoubleHitRecordedTwice(b, s.players);
    assert BallPhase(s.balls, s.players, pause.paused, s.difficulty).deleted == [i, i];
    assert FallAll(s.balls, pause.paused, s.difficulty) == [b];
    if i == 0 {
      assert RemoveAll([b], [0, 0]) == RemoveAll([], [0]);
    }
  }

  /** With a second ball in the list, the same double hit does not panic:
      the first removal shifts the other ball to position 0 and the second
      removal takes it, although no player touched it. (Players as at the
      start on a screen 390 units wide.) */
  lemma TwoBallDoubleHitRemovesWrongBall()
    ensures var s := InitialState(390.0).(balls := [
              BallState(Vec2(200.0, 453.5), DefaultBallRadius, Normal, 0),
              BallState(Vec2(200.0, 50.0), DefaultBallRadius, Normal, 1)]);
            var r := Advance(s, Input(false, [Keys(false, false), Keys(false, false)]));
            r.Continued? && r.state.balls == []
  {
    var s := InitialState(390.0).(balls := [
      BallState(Vec2(200.0, 453.5), DefaultBallRadius, Normal, 0),
      BallState(Vec2(200.0, 50.0), DefaultBallRadius, Normal, 1)]);
    var b0 := Fall(s.balls[0], false, 1);
    var b1 := Fall(s.balls[1], false, 1);
    var one := s.balls[..1];
    assert s.balls[..0] == [];
    BallPhaseSnoc(s.balls, s.players, false, 1, 0);
    assert Collides(b0, s.players[0]) && Collides(b0, s.players[1]);
    DoubleHitRecordedTwice(b0, s.players);
    var first := BallPhase(one, s.players, false, 1);
    assert first == BallStep(Phase(s.players, []), b0);
    assert first.deleted == [0, 0];
    forall j | 0 <= j < 2
      ensures first.players[j].position == s.players[j].position && first.players[j].size == s.players[j].size
    {
      PhaseKeepsGeometry(one, s.players, false, 1, j);
    }
    RecordedUsesGeometry(b1, first.players, s.players);
    assert !Collides(b1, s.players[0]) && !Collides(b1, s.players[1]);
    assert Recorded(b1, first.players) == [];
    assert BallPhase(s.balls, s.players, false, 1).deleted == [0, 0];
    assert FallAll(s.balls, false, 1) == [b0, b1];
    assert RemoveAll([b0, b1], [0, 0]) == RemoveAll([b1], [0]);
    assert RemoveAll([b1], [0]) == RemoveAll([], []);
  }
}

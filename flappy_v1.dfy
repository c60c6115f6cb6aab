/**
 * The reaction-based variant of the game screen. Its state is the bird's height
 * and vertical velocity, the game-over flag, the pipe's x and gap offset, the
 * score, and whether a pipe animation is in flight. Three kinds of event drive it:
 * a frame tick, a tap, and a new pipe x delivered by the animation, which a
 * reaction compares with the previous x to recycle the pipe and to score.
 *
 * `Session` and the step functions over it are the specification; `Game` holds
 * the same state in mutable fields and its methods are proved to follow the steps.
 */
module FlappyV1 {
  import opened Optional
  import opened World

  datatype Session = Session(
    birdY: real,
    birdYVelocity: real,
    gameOver: bool,
    pipeX: real,
    pipeOffset: real,
    score: nat,
    pipeMoving: bool)
  {
    function BirdState(): Bird { Bird(birdY, birdYVelocity) }
  }

  /** The state when the screen mounts: the pipe animation starts at once. */
  function Mounted(screen: Screen): Session {
    Session(screen.StartY(), 0.0, false, screen.width, 0.0, 0, true)
  }

  // ---------------------------------------------------------------------------
  // Steps

  /** The frame callback. */
  function TickStep(s: Session, dt: Option<real>): (t: Session)
    ensures Skips(dt) || s.gameOver ==> t == s
    ensures !Skips(dt) && !s.gameOver ==> t.BirdState() == Fall(s.BirdState(), dt.value)
    ensures t.(birdY := s.birdY, birdYVelocity := s.birdYVelocity) == s
  {
    if Skips(dt) || s.gameOver then s
    else
      var b := Fall(s.BirdState(), dt.value);
      s.(birdY := b.y, birdYVelocity := b.velocity)
  }

  /** `restartGame`: a fresh session, except that the gap offset is kept. */
  function RestartStep(s: Session, screen: Screen): (t: Session)
    ensures t == Mounted(screen).(pipeOffset := s.pipeOffset)
  {
    s.(birdY := screen.StartY(), birdYVelocity := 0.0, gameOver := false,
       pipeX := screen.width, score := 0, pipeMoving := true)
  }

  /** The tap gesture: restart after a game over, jump otherwise. */
  function TapStep(s: Session, screen: Screen): (t: Session)
    ensures s.gameOver ==> t == RestartStep(s, screen)
    ensures !s.gameOver ==> t.birdYVelocity == JumpForce && t.(birdYVelocity := s.birdYVelocity) == s
  {
    if s.gameOver then RestartStep(s, screen) else s.(birdYVelocity := JumpForce)
  }

  /** The reaction to `gameOver` changing from `previous`: cancel the pipe animation
      when the game has just ended. */
  function GameOverReaction(s: Session, previous: bool): (t: Session)
    ensures t.pipeMoving <==> s.pipeMoving && !(s.gameOver && !previous)
    ensures t.(pipeMoving := s.pipeMoving) == s
  {
    if s.gameOver && !previous then s.(pipeMoving := false) else s
  }

  /** The collision reaction (ground or ceiling first, then either pipe), followed by
      the game-over reaction. */
  function CollisionStep(s: Session, screen: Screen): (t: Session)
    ensures t.gameOver <==> s.gameOver || Hit(screen, s.birdY, s.pipeX, s.pipeOffset)
    ensures t.pipeMoving <==> s.pipeMoving && (s.gameOver || !Hit(screen, s.birdY, s.pipeX, s.pipeOffset))
    ensures t.(gameOver := s.gameOver, pipeMoving := s.pipeMoving) == s
  {
    var s1 := if OutOfBounds(screen, s.birdY) then s.(gameOver := true) else s;
    var s2 := if SomeColliding(BirdCenter(screen, s.birdY), Obstacles(screen, s.pipeX, s.pipeOffset))
              then s1.(gameOver := true) else s1;
    GameOverReaction(s2, s.gameOver)
  }

  /** JavaScript truthiness of the reaction's previous value: not null, not zero. */
  predicate Truthy(prev: Option<real>) {
    prev.Some? && prev.value != 0.0
  }

  /** The recycle condition: the pipe has just gone past -100. */
  predicate Recycles(prev: Option<real>, cur: real) {
    Truthy(prev) && cur < -100.0 && prev.value > -100.0
  }

  /** The scoring condition: the pipe has just reached or gone past `middle`. */
  predicate PassesBird(prev: Option<real>, cur: real, middle: real) {
    (prev.None? || cur != prev.value) && Truthy(prev) && cur <= middle && prev.value > middle
  }

  /** The pipe-position reaction for a move from `prev` to `cur`, with `r` the
      random draw used when the pipe is recycled. */
  function PipeStep(s: Session, screen: Screen, prev: Option<real>, cur: real, r: real): (t: Session)
    requires 0.0 <= r < 1.0
    ensures t.pipeX == cur
    ensures t.score == s.score + (if PassesBird(prev, cur, screen.BirdX()) then 1 else 0)
    ensures Recycles(prev, cur) ==>
      t.pipeOffset == NextPipeOffset(r) && -200.0 <= t.pipeOffset < 200.0 && t.pipeMoving
    ensures !Recycles(prev, cur) ==> t.pipeOffset == s.pipeOffset && t.pipeMoving == s.pipeMoving
    ensures t.BirdState() == s.BirdState() && t.gameOver == s.gameOver
  {
    var s1 := s.(pipeX := cur);
    var s2 := if Recycles(prev, cur) then s1.(pipeOffset := NextPipeOffset(r), pipeMoving := true) else s1;
    if PassesBird(prev, cur, screen.BirdX()) then s2.(score := s2.score + 1) else s2
  }

  /** With a positive screen width the scoring condition is exactly a crossing of the
      bird's x from strictly right to at-or-left, however large the jump. */
  lemma PassesBirdIsCrossing(screen: Screen, prev: real, cur: real)
    requires screen.width > 0.0
    ensures PassesBird(Some(prev), cur, screen.BirdX()) <==> prev > screen.BirdX() >= cur
  {
  }

  /** The recycle condition is a strict crossing of -100, for any previous value
      other than zero; a previous value of zero never recycles. */
  lemma RecycleIsStrictCrossing(prev: real, cur: real)
    ensures prev != 0.0 ==> (Recycles(Some(prev), cur) <==> prev > -100.0 > cur)
    ensures !Recycles(Some(0.0), cur) && !Recycles(None, cur)
  {
  }

  // ---------------------------------------------------------------------------
  // Event traces

  datatype Event =
    | Frame(dt: Option<real>)
    | Touch
    | CollisionCheck
    | PipeMoved(prev: Option<real>, cur: real, r: real)

  /** A random draw is in [0, 1). */
  predicate Drawn(e: Event) {
    e.PipeMoved? ==> 0.0 <= e.r < 1.0
  }

  predicate AllDrawn(es: seq<Event>) {
    forall i :: 0 <= i < |es| ==> Drawn(es[i])
  }

  function Step(s: Session, screen: Screen, e: Event): Session
    requires Drawn(e)
  {
    match e
    case Frame(dt) => TickStep(s, dt)
    case Touch => TapStep(s, screen)
    case CollisionCheck => CollisionStep(s, screen)
    case PipeMoved(prev, cur, r) => PipeStep(s, screen, prev, cur, r)
  }

  function Run(s: Session, screen: Screen, es: seq<Event>): Session
    requires AllDrawn(es)
    decreases |es|
  {
    if es == [] then s else Run(Step(s, screen, es[0]), screen, es[1..])
  }

  /** Pipe positions come only from a running animation. */
  predicate Driven(s: Session, screen: Screen, es: seq<Event>)
    requires AllDrawn(es)
    decreases |es|
  {
    es == [] ||
    ((es[0].PipeMoved? ==> s.pipeMoving) && Driven(Step(s, screen, es[0]), screen, es[1..]))
  }

  predicate NoTouch(es: seq<Event>) {
    forall i :: 0 <= i < |es| ==> !es[i].Touch?
  }

  /** After a game over the pipe animation is cancelled. */
  predicate Cancelled(s: Session) {
    s.gameOver ==> !s.pipeMoving
  }

  lemma StepKeepsCancelled(s: Session, screen: Screen, e: Event)
    requires Drawn(e) && Cancelled(s) && (e.PipeMoved? ==> s.pipeMoving)
    ensures Cancelled(Step(s, screen, e))
  {
  }

  /** Every driven trace keeps the animation cancelled while the game is over. */
  lemma {:induction false} RunKeepsCancelled(s: Session, screen: Screen, es: seq<Event>)
    requires AllDrawn(es) && Cancelled(s) && Driven(s, screen, es)
    ensures Cancelled(Run(s, screen, es))
    decreases |es|
  {
    if es != [] {
      StepKeepsCancelled(s, screen, es[0]);
      RunKeepsCancelled(Step(s, screen, es[0]), screen, es[1..]);
    }
  }

  /** Once the game is over nothing changes until a tap: no physics, no pipe motion,
      no score. */
  lemma {:induction false} GameOverFreezesSession(s: Session, screen: Screen, es: seq<Event>)
    requires AllDrawn(es) && s.gameOver && Cancelled(s) && Driven(s, screen, es) && NoTouch(es)
    ensures Run(s, screen, es) == s
    decreases |es|
  {
    if es != [] {
      assert !es[0].Touch?;
      assert Step(s, screen, es[0]) == s;
      GameOverFreezesSession(s, screen, es[1..]);
    }
  }

  /** Without a tap the score never goes down. */
  lemma {:induction false} ScoreNeverDecreasesWithoutTap(s: Session, screen: Screen, es: seq<Event>)
    requires AllDrawn(es) && NoTouch(es)
    ensures Run(s, screen, es).score >= s.score
    decreases |es|
  {
    if es != [] {
      assert !es[0].Touch?;
      ScoreNeverDecreasesWithoutTap(Step(s, screen, es[0]), screen, es[1..]);
    }
  }

  /** The reaction calls for consecutive samples `xs` of the pipe's x. */
  function Samples(xs: seq<real>, r: real): (es: seq<Event>)
    requires |xs| >= 1
    ensures |es| == |xs| - 1
    ensures forall i :: 0 <= i < |es| ==> es[i] == PipeMoved(Some(xs[i]), xs[i + 1], r)
    decreases |xs|
  {
    if |xs| == 1 then [] else [PipeMoved(Some(xs[0]), xs[1], r)] + Samples(xs[1..], r)
  }

  predicate NonIncreasing(xs: seq<real>) {
    forall i, j :: 0 <= i <= j < |xs| ==> xs[j] <= xs[i]
  }

  /** One leftward pass of the pipe scores exactly once if it starts right of the
      bird and ends at or left of it, and never otherwise — whatever the sampling. */
  lemma {:induction false} OneScorePerPass(s: Session, screen: Screen, xs: seq<real>, r: real)
    requires screen.width > 0.0 && 0.0 <= r < 1.0
    requires |xs| >= 1 && NonIncreasing(xs)
    ensures AllDrawn(Samples(xs, r))
    ensures Run(s, screen, Samples(xs, r)).score
         == s.score + (if xs[0] > screen.BirdX() >= xs[|xs| - 1] then 1 else 0)
    decreases |xs|
  {
    var es := Samples(xs, r);
    if |xs| > 1 {
      var m := screen.BirdX();
      var t := PipeStep(s, screen, Some(xs[0]), xs[1], r);
      PassesBirdIsCrossing(screen, xs[0], xs[1]);
      assert es[0] == PipeMoved(Some(xs[0]), xs[1], r);
      assert es[1..] == Samples(xs[1..], r);
      assert Step(s, screen, es[0]) == t;
      OneScorePerPass(t, screen, xs[1..], r);
      assert xs[1..][|xs[1..]| - 1] == xs[|xs| - 1];
      assert xs[|xs| - 1] <= xs[1];
    }
  }

  // ---------------------------------------------------------------------------
  // The game screen's state, updated in place

  class Game {
    const screen: Screen
    var birdY: real
    var birdYVelocity: real
    var gameOver: bool
    var pipeX: real
    var pipeOffset: real
    var score: nat
    var pipeMoving: bool

    function Snapshot(): Session
      reads this
    {
      Session(birdY, birdYVelocity, gameOver, pipeX, pipeOffset, score, pipeMoving)
    }

    /** Mounting the screen: shared values at their initial values, then the effect
        that starts the pipe animation. */
    constructor (width: real, height: real)
      ensures screen == Screen(width, height)
      ensures Snapshot() == Mounted(screen)
    {
      screen := Screen(width, height);
      birdY := height / 3.0;
      birdYVelocity := 0.0;
      gameOver := false;
      pipeX := width;
      pipeOffset := 0.0;
      score := 0;
      pipeMoving := true;
    }

    /** `moveTheMap`: (re)start the pipe animation. */
    method MoveTheMap()
      modifies this
      ensures Snapshot() == old(Snapshot()).(pipeMoving := true)
    {
      pipeMoving := true;
    }

    method Tick(dt: Option<real>)
      modifies this
      ensures Snapshot() == TickStep(old(Snapshot()), dt)
    {
      if dt.None? || dt.value == 0.0 || gameOver {
        return;
      }
      birdY := birdY + birdYVelocity * dt.value / 1000.0;
      birdYVelocity := birdYVelocity + Gravity * dt.value / 1000.0;
    }

    method RestartGame()
      modifies this
      ensures Snapshot() == RestartStep(old(Snapshot()), screen)
    {
      birdY := screen.height / 3.0;
      birdYVelocity := 0.0;
      gameOver := false;
      pipeX := screen.width;
      MoveTheMap();
      score := 0;
    }

    method Tap()
      modifies this
      ensures Snapshot() == TapStep(old(Snapshot()), screen)
    {
      if gameOver {
        RestartGame();
      } else {
        birdYVelocity := JumpForce;
      }
    }

    method OnGameOverChanged(previous: bool)
      modifies this
      ensures Snapshot() == GameOverReaction(old(Snapshot()), previous)
    {
      if gameOver && !previous {
        pipeMoving := false;
      }
    }

    method CheckCollision()
      modifies this
      ensures Snapshot() == CollisionStep(old(Snapshot()), screen)
    {
      var previous := gameOver;
      var center := Point(screen.width / 4.0 + 32.0, birdY + 24.0);
      if birdY > screen.height - BaseHeight + BirdHeight / 2.0 || birdY < 0.0 {
        gameOver := true;
      }
      var obstacles := Obstacles(screen, pipeX, pipeOffset);
      var isColliding := IsPointCollidingWithRect(center, obstacles[0])
                      || IsPointCollidingWithRect(center, obstacles[1]);
      if isColliding {
        gameOver := true;
      }
      OnGameOverChanged(previous);
    }

    method ObservePipeX(prev: Option<real>, cur: real, r: real)
      requires 0.0 <= r < 1.0
      modifies this
      ensures Snapshot() == PipeStep(old(Snapshot()), screen, prev, cur, r)
    {
      pipeX := cur;
      var middle := screen.width / 4.0;
      if prev.Some? && prev.value != 0.0 && cur < -100.0 && prev.value > -100.0 {
        pipeOffset := r * 400.0 - 200.0;
        pipeMoving := false;
        MoveTheMap();
      }
      if (prev.None? || cur != prev.value) && prev.Some? && prev.value != 0.0
         && cur <= middle && prev.value > middle {
        score := score + 1;
      }
    }

    /** The bird's rotation: its velocity over 1000, clamped to [-0.5, 0.5]. */
    function BirdRotation(): (a: real)
      reads this
      ensures -0.5 <= a <= 0.5
      ensures a == Clamp(birdYVelocity / 1000.0, -0.5, 0.5)
    {
      RotationIsClampedVelocity(birdYVelocity);
      Rotation(birdYVelocity)
    }
  }
}

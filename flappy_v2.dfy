/**
 * The callback-based variant of the game screen. Beside the state of the first
 * variant it has a `gameStarted` flag: nothing moves until the first tap. The pipe
 * animation runs from the right edge to just off the left edge, and its completion
 * handler recycles the pipe, adds one to the score and, unless the game is over,
 * starts the next traversal. There is no cancellation on game over: an in-flight
 * traversal still completes and still scores.
 *
 * `Session` and the step functions over it are the specification; `Game` holds
 * the same state in mutable fields and its methods are proved to follow the steps.
 */
module FlappyV2 {
  import opened Optional
  import opened World

  datatype Session = Session(
    birdY: real,
    birdYVelocity: real,
    gameOver: bool,
    gameStarted: bool,
    pipeX: real,
    pipeOffset: real,
    score: nat,
    pipeMoving: bool)
  {
    function BirdState(): Bird { Bird(birdY, birdYVelocity) }
  }

  /** The state when the screen mounts: not started, no pipe animation yet. */
  function Mounted(screen: Screen): Session {
    Session(screen.StartY(), 0.0, false, false, screen.width, 0.0, 0, false)
  }

  // ---------------------------------------------------------------------------
  // Steps

  /** The frame callback: only a started, running game with an elapsed time moves. */
  function TickStep(s: Session, dt: Option<real>): (t: Session)
    ensures Skips(dt) || s.gameOver || !s.gameStarted ==> t == s
    ensures !Skips(dt) && !s.gameOver && s.gameStarted ==> t.BirdState() == Fall(s.BirdState(), dt.value)
    ensures t.(birdY := s.birdY, birdYVelocity := s.birdYVelocity) == s
  {
    if Skips(dt) || s.gameOver || !s.gameStarted then s
    else
      var b := Fall(s.BirdState(), dt.value);
      s.(birdY := b.y, birdYVelocity := b.velocity)
  }

  /** `startGame`: mark the game started, jump, and start the pipe animation. */
  function StartStep(s: Session): (t: Session)
    ensures t.gameStarted && t.birdYVelocity == JumpForce && t.pipeMoving
    ensures t.(gameStarted := s.gameStarted, birdYVelocity := s.birdYVelocity, pipeMoving := s.pipeMoving) == s
  {
    s.(gameStarted := true, birdYVelocity := JumpForce, pipeMoving := true)
  }

  /** `restartGame`: a fresh running session; the started flag and the gap offset
      are kept, so there is no way back to the not-started screen. */
  function RestartStep(s: Session, screen: Screen): (t: Session)
    ensures t == Mounted(screen).(gameStarted := s.gameStarted, pipeOffset := s.pipeOffset, pipeMoving := true)
  {
    s.(birdY := screen.StartY(), birdYVelocity := 0.0, gameOver := false,
       pipeX := screen.width, score := 0, pipeMoving := true)
  }

  /** The tap gesture: restart after a game over, start a game not yet started,
      jump otherwise. */
  function TapStep(s: Session, screen: Screen): (t: Session)
    ensures s.gameOver ==> t == RestartStep(s, screen)
    ensures !s.gameOver && !s.gameStarted ==> t == StartStep(s)
    ensures !s.gameOver && s.gameStarted ==>
      t.birdYVelocity == JumpForce && t.(birdYVelocity := s.birdYVelocity) == s
    ensures !t.gameOver && (t.gameStarted <==> s.gameStarted || !s.gameOver)
  {
    if s.gameOver then RestartStep(s, screen)
    else if !s.gameStarted then StartStep(s)
    else s.(birdYVelocity := JumpForce)
  }

  /** The collision reaction: one combined test. It never clears `gameOver` and
      cancels nothing. */
  function CollisionStep(s: Session, screen: Screen): (t: Session)
    ensures t.gameOver <==> s.gameOver || Hit(screen, s.birdY, s.pipeX, s.pipeOffset)
    ensures t.(gameOver := s.gameOver) == s
  {
    if OutOfBounds(screen, s.birdY) ||
       SomeColliding(BirdCenter(screen, s.birdY), Obstacles(screen, s.pipeX, s.pipeOffset))
    then s.(gameOver := true)
    else s
  }

  /** The completion handler of one traversal, with `r` the random draw: back to the
      right edge with a new gap, one more point, and the next traversal only if the
      game is not over. */
  function TraversalStep(s: Session, screen: Screen, r: real): (t: Session)
    requires 0.0 <= r < 1.0
    ensures t.pipeX == screen.width
    ensures t.pipeOffset == NextPipeOffset(r) && -200.0 <= t.pipeOffset < 200.0
    ensures t.score == s.score + 1
    ensures t.pipeMoving <==> !s.gameOver
    ensures t.BirdState() == s.BirdState() && t.gameOver == s.gameOver && t.gameStarted == s.gameStarted
  {
    s.(pipeX := screen.width, pipeOffset := NextPipeOffset(r), score := s.score + 1,
       pipeMoving := !s.gameOver)
  }

  /** One frame of a running traversal: the animation has moved the pipe to `x`.
      Nothing reacts to the pipe's position, so nothing else changes. */
  function SlideStep(s: Session, x: real): (t: Session)
    ensures t.pipeX == x && t.(pipeX := s.pipeX) == s
  {
    s.(pipeX := x)
  }

  // ---------------------------------------------------------------------------
  // Event traces

  datatype Event =
    | Frame(dt: Option<real>)
    | Touch
    | CollisionCheck
    | PipeAt(x: real)
    | TraversalDone(r: real)

  /** A random draw is in [0, 1). */
  predicate Drawn(e: Event) {
    e.TraversalDone? ==> 0.0 <= e.r < 1.0
  }

  predicate AllDrawn(es: seq<Event>) {
    forall i :: 0 <= i < |es| ==> Drawn(es[i])
  }

  function Step(s: Session, screen: Screen, e: Event): Session
    requires Drawn(e)
  {
    match e
    case Frame(dt) => TickStep(s, dt)
    case Touch => TapStep(s, screen)
    case CollisionCheck => CollisionStep(s, screen)
    case PipeAt(x) => SlideStep(s, x)
    case TraversalDone(r) => TraversalStep(s, screen, r)
  }

  function Run(s: Session, screen: Screen, es: seq<Event>): Session
    requires AllDrawn(es)
    decreases |es|
  {
    if es == [] then s else Run(Step(s, screen, es[0]), screen, es[1..])
  }

  /** The pipe moves, and a traversal completes, only while a pipe animation is
      running. */
  predicate Driven(s: Session, screen: Screen, es: seq<Event>)
    requires AllDrawn(es)
    decreases |es|
  {
    es == [] ||
    ((es[0].PipeAt? || es[0].TraversalDone? ==> s.pipeMoving) &&
     Driven(Step(s, screen, es[0]), screen, es[1..]))
  }

  predicate NoTouch(es: seq<Event>) {
    forall i :: 0 <= i < |es| ==> !es[i].Touch?
  }

  /** The number of completed traversals in a trace. */
  function Completions(es: seq<Event>): (n: nat)
    ensures n <= |es|
    ensures n == 0 <==> forall i :: 0 <= i < |es| ==> !es[i].TraversalDone?
    decreases |es|
  {
    if es == [] then 0
    else (if es[0].TraversalDone? then 1 else 0) + Completions(es[1..])
  }

  /** Once started, a game is started for good: no event leads back. */
  lemma {:induction false} StartedStaysStarted(s: Session, screen: Screen, es: seq<Event>)
    requires AllDrawn(es) && s.gameStarted
    ensures Run(s, screen, es).gameStarted
    decreases |es|
  {
    if es != [] {
      StartedStaysStarted(Step(s, screen, es[0]), screen, es[1..]);
    }
  }

  /** Before the first tap the bird does not move and the game stays unstarted. */
  lemma {:induction false} IdleUntilTap(s: Session, screen: Screen, es: seq<Event>)
    requires AllDrawn(es) && !s.gameStarted && NoTouch(es)
    ensures !Run(s, screen, es).gameStarted
    ensures Run(s, screen, es).BirdState() == s.BirdState()
    decreases |es|
  {
    if es != [] {
      assert !es[0].Touch?;
      IdleUntilTap(Step(s, screen, es[0]), screen, es[1..]);
    }
  }

  /** Without a tap the score grows by exactly the number of completed traversals,
      whether or not the game is over. */
  lemma {:induction false} ScoreCountsTraversals(s: Session, screen: Screen, es: seq<Event>)
    requires AllDrawn(es) && NoTouch(es)
    ensures Run(s, screen, es).score == s.score + Completions(es)
    decreases |es|
  {
    if es != [] {
      assert !es[0].Touch?;
      ScoreCountsTraversals(Step(s, screen, es[0]), screen, es[1..]);
    }
  }

  /** After a game over the bird is frozen and the game stays over until a tap; the
      traversal still in flight may complete and score one more point, but none is
      started after it. */
  lemma {:induction false} AtMostOneScoreAfterGameOver(s: Session, screen: Screen, es: seq<Event>)
    requires AllDrawn(es) && s.gameOver && Driven(s, screen, es) && NoTouch(es)
    ensures Run(s, screen, es).gameOver
    ensures Run(s, screen, es).BirdState() == s.BirdState()
    ensures Run(s, screen, es).score <= s.score + (if s.pipeMoving then 1 else 0)
    ensures !s.pipeMoving ==> !Run(s, screen, es).pipeMoving
    decreases |es|
  {
    if es != [] {
      assert !es[0].Touch?;
      AtMostOneScoreAfterGameOver(Step(s, screen, es[0]), screen, es[1..]);
    }
  }

  /** A pipe can end the game: on a 400 by 800 screen, after the first tap the
      animation brings the pipe to x = 120, where the bird, well inside the screen,
      is in the upper pipe's hitbox. */
  lemma PipeHitReachable()
    ensures var screen := Screen(400.0, 800.0);
      var es := [Touch, PipeAt(120.0), CollisionCheck];
      AllDrawn(es) && Driven(Mounted(screen), screen, es) &&
      var t := Run(Mounted(screen), screen, es);
      t.gameOver && !OutOfBounds(screen, t.birdY)
  {
  }

  /** Unlike the first variant, a game over does not stop the pipe: while the
      traversal is in flight the pipe keeps sliding, and a collision check there
      changes nothing. */
  lemma PipeSlidesAfterGameOver(s: Session, screen: Screen, x: real)
    requires s.gameOver && s.pipeMoving
    ensures Driven(s, screen, [PipeAt(x), CollisionCheck])
    ensures Run(s, screen, [PipeAt(x), CollisionCheck]) == s.(pipeX := x)
  {
    var es := [PipeAt(x), CollisionCheck];
    var slid := SlideStep(s, x);
    assert es[1..] == [CollisionCheck];
    assert Run(s, screen, es) == Run(slid, screen, [CollisionCheck]);
    assert CollisionStep(slid, screen).gameOver;
  }

  // ---------------------------------------------------------------------------
  // The game screen's state, updated in place

  class Game {
    const screen: Screen
    var birdY: real
    var birdYVelocity: real
    var gameOver: bool
    var gameStarted: bool
    var pipeX: real
    var pipeOffset: real
    var score: nat
    var pipeMoving: bool

    function Snapshot(): Session
      reads this
    {
      Session(birdY, birdYVelocity, gameOver, gameStarted, pipeX, pipeOffset, score, pipeMoving)
    }

    /** Mounting the screen: shared values and state at their initial values; the
        pipe animation waits for the game to start. */
    constructor (width: real, height: real)
      ensures screen == Screen(width, height)
      ensures Snapshot() == Mounted(screen)
    {
      screen := Screen(width, height);
      birdY := height / 3.0;
      birdYVelocity := 0.0;
      gameOver := false;
      gameStarted := false;
      pipeX := width;
      pipeOffset := 0.0;
      score := 0;
      pipeMoving := false;
    }

    /** `moveTheMap`: start a traversal towards the left edge. */
    method MoveTheMap()
      modifies this
      ensures Snapshot() == old(Snapshot()).(pipeMoving := true)
    {
      pipeMoving := true;
    }

    /** The completion handler of `moveTheMap`'s animation. */
    method TraversalComplete(r: real)
      requires 0.0 <= r < 1.0
      modifies this
      ensures Snapshot() == TraversalStep(old(Snapshot()), screen, r)
    {
      pipeMoving := false;
      pipeX := screen.width;
      pipeOffset := r * 400.0 - 200.0;
      score := score + 1;
      if !gameOver {
        MoveTheMap();
      }
    }

    /** A frame of the traversal: the animated shared value takes its next position. */
    method AnimatePipe(x: real)
      modifies this
      ensures Snapshot() == SlideStep(old(Snapshot()), x)
    {
      pipeX := x;
    }

    method CheckCollision()
      modifies this
      ensures Snapshot() == CollisionStep(old(Snapshot()), screen)
    {
      var center := Point(screen.width / 4.0 + BirdWidth / 2.0, birdY + BirdHeight / 2.0);
      var obstacles := Obstacles(screen, pipeX, pipeOffset);
      if birdY > screen.height - BaseHeight + BirdHeight / 2.0 || birdY < 0.0
         || IsPointCollidingWithRect(center, obstacles[0])
         || IsPointCollidingWithRect(center, obstacles[1]) {
        gameOver := true;
      }
    }

    method Tick(dt: Option<real>)
      modifies this
      ensures Snapshot() == TickStep(old(Snapshot()), dt)
    {
      if dt.None? || dt.value == 0.0 || gameOver || !gameStarted {
        return;
      }
      birdY := birdY + birdYVelocity * dt.value / 1000.0;
      birdYVelocity := birdYVelocity + Gravity * dt.value / 1000.0;
    }

    method RestartGame()
      modifies this
      ensures Snapshot() == RestartStep(old(Snapshot()), screen)
    {
      birdY := screen.height / 3.0;
      birdYVelocity := 0.0;
      gameOver := false;
      pipeX := screen.width;
      score := 0;
      MoveTheMap();
    }

    method StartGame()
      modifies this
      ensures Snapshot() == StartStep(old(Snapshot()))
    {
      gameStarted := true;
      birdYVelocity := JumpForce;
      MoveTheMap();
    }

    method Tap()
      modifies this
      ensures Snapshot() == TapStep(old(Snapshot()), screen)
    {
      if gameOver {
        RestartGame();
      } else if !gameStarted {
        StartGame();
      } else {
        birdYVelocity := JumpForce;
      }
    }

    /** The bird's rotation: its velocity over 1000, clamped to [-0.5, 0.5]. */
    function BirdRotation(): (a: real)
      reads this
      ensures -0.5 <= a <= 0.5
      ensures a == Clamp(birdYVelocity / 1000.0, -0.5, 0.5)
    {
      RotationIsClampedVelocity(birdYVelocity);
      Rotation(birdYVelocity)
    }
  }
}

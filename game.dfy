/** One run of the game: the state that game.js keeps in its closure, the tick of update
    as a function of that state, and the Game class whose methods change it in place. */
module FlappyGame {
  import opened Geometry
  import opened ScoreHistory
  import opened Pipes

  const BIRD_X: real := BOARD_WIDTH / 8.0
  const BIRD_Y: real := BOARD_HEIGHT / 2.0
  const BIRD_WIDTH: real := 32.0
  const BIRD_HEIGHT: real := 26.0
  /** Added to the vertical velocity on every tick. */
  const GRAVITY: real := 0.7
  /** The vertical velocity a jump sets. */
  const JUMP_VELOCITY: real := -7.0

  /** The bird as init places it. */
  function StartBird(): Box {
    Box(BIRD_X, BIRD_Y, BIRD_WIDTH, BIRD_HEIGHT)
  }

  /** Everything one run changes, as a value. */
  datatype State = State(
    bird: Box,
    pipes: seq<Pipe>,
    velocityY: real,
    score: real,
    gameover: bool,
    gameStarted: bool,
    history: seq<Entry>)

  /** What the pipe loop of update has built after some iterations: the pipes already
      handled, the score, the game-over flag and the history. */
  datatype Sweep = Sweep(pipes: seq<Pipe>, score: real, gameover: bool, history: seq<Entry>)

  /** One iteration of the pipe loop: move, maybe score, and call gameOver on a collision. */
  function StepPipe(bird: Box, a: Sweep, p: Pipe, now: string): Sweep {
    var q := Advance(bird, p);
    var score := if Passed(bird, Shift(p)) then a.score + 0.5 else a.score;
    if Collision(bird, q.Box()) then
      Sweep(a.pipes + [q], score, true, Record(a.history, Entry(score.Floor, now)))
    else
      Sweep(a.pipes + [q], score, a.gameover, a.history)
  }

  /** The pipe loop run over ps, starting from a0. */
  function SweepPipes(bird: Box, ps: seq<Pipe>, a0: Sweep, now: string): Sweep {
    if ps == [] then a0
    else StepPipe(bird, SweepPipes(bird, ps[..|ps| - 1], a0, now), ps[|ps| - 1], now)
  }

  /** The bird after the gravity step of update. */
  function Fall(s: State): Box {
    s.bird.(y := Max(s.bird.y + (s.velocityY + GRAVITY), 0.0))
  }

  /** One call of update. */
  function Tick(s: State, now: string): State {
    if s.gameover then s
    else
      var v := s.velocityY + GRAVITY;
      var bird := Fall(s);
      var a := SweepPipes(bird, s.pipes, Sweep([], s.score, false, s.history), now);
      var kept := KeepOnScreen(a.pipes);
      if bird.y > BOARD_HEIGHT then
        State(bird, kept, v, a.score, true, s.gameStarted, Record(a.history, Entry(a.score.Floor, now)))
      else
        State(bird, kept, v, a.score, a.gameover, s.gameStarted, a.history)
  }

  // ---------------------------------------------------------------------------------
  // The pipe loop

  /** Running the loop one pipe further is one more StepPipe. */
  lemma SweepPipesPrefix(bird: Box, ps: seq<Pipe>, i: nat, a0: Sweep, now: string)
    requires i < |ps|
    ensures SweepPipes(bird, ps[..i + 1], a0, now) == StepPipe(bird, SweepPipes(bird, ps[..i], a0, now), ps[i], now)
  {
    assert ps[..i + 1][..i] == ps[..i];
  }

  /** The loop visits the pipes in order and leaves each one as Advance makes it. */
  lemma {:induction false} SweepMovesPipes(bird: Box, ps: seq<Pipe>, a0: Sweep, now: string)
    ensures SweepPipes(bird, ps, a0, now).pipes == a0.pipes + AdvanceAll(bird, ps)
  {
    if ps != [] {
      var init := ps[..|ps| - 1];
      SweepMovesPipes(bird, init, a0, now);
      assert AdvanceAll(bird, ps) == AdvanceAll(bird, init) + [Advance(bird, ps[|ps| - 1])];
    }
  }

  /** The score grows by exactly one half for every pipe passed for the first time. */
  lemma {:induction false} SweepScore(bird: Box, ps: seq<Pipe>, a0: Sweep, now: string)
    ensures SweepPipes(bird, ps, a0, now).score == a0.score + 0.5 * CountPasses(bird, ps) as real
    ensures SweepPipes(bird, ps, a0, now).score >= a0.score
  {
    if ps != [] {
      SweepScore(bird, ps[..|ps| - 1], a0, now);
    }
  }

  /** The loop ends the run exactly when the bird overlaps some moved pipe. */
  lemma {:induction false} SweepGameOver(bird: Box, ps: seq<Pipe>, a0: Sweep, now: string)
    ensures SweepPipes(bird, ps, a0, now).gameover <==>
            a0.gameover || exists i :: 0 <= i < |ps| && Collision(bird, Shift(ps[i]).Box())
  {
    if ps != [] {
      var init := ps[..|ps| - 1];
      SweepGameOver(bird, init, a0, now);
      assert forall i :: 0 <= i < |init| ==> init[i] == ps[i];
    }
  }

  /** Each collision calls gameOver once: every call adds an entry until the list is full,
      and without a collision the history is untouched. */
  lemma {:induction false} SweepHistory(bird: Box, ps: seq<Pipe>, a0: Sweep, now: string)
    ensures var h := SweepPipes(bird, ps, a0, now).history;
            var k := CountHits(bird, ps);
            && (k == 0 ==> h == a0.history)
            && |h| == (if k == 0 then |a0.history|
                       else if |a0.history| + k < CAPACITY then |a0.history| + k else CAPACITY)
            && (k > 0 || HistoryOk(a0.history) ==> HistoryOk(h))
  {
    if ps != [] {
      SweepHistory(bird, ps[..|ps| - 1], a0, now);
    }
  }

  // ---------------------------------------------------------------------------------
  // One tick

  /** Once the run is over, update changes nothing. */
  lemma TickWhenOver(s: State, now: string)
    requires s.gameover
    ensures Tick(s, now) == s
  {
  }

  /** Gravity: the velocity grows by 0.7 and the bird moves by the new velocity, but never
      above the top of the board; x, size and the started flag stay. */
  lemma TickMovesBird(s: State, now: string)
    requires !s.gameover
    ensures Tick(s, now).velocityY == s.velocityY + GRAVITY
    ensures Tick(s, now).bird.y == Max(s.bird.y + s.velocityY + GRAVITY, 0.0)
    ensures Tick(s, now).bird.y >= 0.0
    ensures Tick(s, now).bird == s.bird.(y := Tick(s, now).bird.y)
    ensures Tick(s, now).gameStarted == s.gameStarted
  {
  }

  /** The score grows by one half per pipe passed for the first time, so it never drops. */
  lemma TickScore(s: State, now: string)
    requires !s.gameover
    ensures Tick(s, now).score == s.score + 0.5 * CountPasses(Fall(s), s.pipes) as real
    ensures Tick(s, now).score >= s.score
  {
    SweepScore(Fall(s), s.pipes, Sweep([], s.score, false, s.history), now);
  }

  /** The score grows by one half per flag the tick sets on a pipe. */
  lemma TickScoreCountsFlips(s: State, now: string)
    requires !s.gameover
    ensures Tick(s, now).score == s.score + 0.5 * Flips(s.pipes, AdvanceAll(Fall(s), s.pipes)) as real
    ensures Tick(s, now).score <= s.score + 0.5 * Fresh(s.pipes) as real
  {
    TickScore(s, now);
    CountPassesAreFlips(Fall(s), s.pipes);
  }

  /** A pipe that has already scored never scores again: with only such pipes the score stays. */
  lemma TickNoRescoring(s: State, now: string)
    requires forall i :: 0 <= i < |s.pipes| ==> s.pipes[i].gotThru
    ensures Tick(s, now).score == s.score
  {
    if !s.gameover {
      TickScore(s, now);
      CountPassesOnlyFresh(Fall(s), s.pipes);
    }
  }

  /** The new pipe list is the moved pipes filtered in order: every survivor is on screen,
      and every moved pipe that is on screen survives. */
  lemma TickPipes(s: State, now: string)
    requires !s.gameover
    ensures Tick(s, now).pipes == KeepOnScreen(AdvanceAll(Fall(s), s.pipes))
    ensures forall p :: p in Tick(s, now).pipes ==> p.x > -p.width
    ensures forall p :: p in AdvanceAll(Fall(s), s.pipes) && p.x > -p.width ==> p in Tick(s, now).pipes
  {
    SweepMovesPipes(Fall(s), s.pipes, Sweep([], s.score, false, s.history), now);
    assert [] + AdvanceAll(Fall(s), s.pipes) == AdvanceAll(Fall(s), s.pipes);
  }

  /** The run ends in this tick exactly when the bird overlaps a moved pipe or falls below
      the board. */
  lemma TickGameOver(s: State, now: string)
    requires !s.gameover
    ensures Tick(s, now).gameover <==>
            (exists i :: 0 <= i < |s.pipes| && Collision(Fall(s), Shift(s.pipes[i]).Box())) ||
            Fall(s).y > BOARD_HEIGHT
  {
    SweepGameOver(Fall(s), s.pipes, Sweep([], s.score, false, s.history), now);
  }

  /** Each detection (every overlapped pipe, and the ground) records one entry, up to ten;
      a tick that ends the run leaves a sorted list of at most ten entries. */
  lemma TickHistory(s: State, now: string)
    requires !s.gameover
    ensures var k := CountHits(Fall(s), s.pipes) + (if Fall(s).y > BOARD_HEIGHT then 1 else 0);
            var h := Tick(s, now).history;
            && (k == 0 ==> h == s.history)
            && |h| == (if k == 0 then |s.history|
                       else if |s.history| + k < CAPACITY then |s.history| + k else CAPACITY)
    ensures Tick(s, now).gameover || HistoryOk(s.history) ==> HistoryOk(Tick(s, now).history)
  {
    var bird := Fall(s);
    var a0 := Sweep([], s.score, false, s.history);
    SweepHistory(bird, s.pipes, a0, now);
    SweepGameOver(bird, s.pipes, a0, now);
    CountHitsZero(bird, s.pipes);
  }

  /** A bird that falls onto a bottom pipe below the board calls gameOver twice in the
      same tick, so one run leaves two entries in the history. */
  lemma GroundAndPipeInOneTick(now: string)
    ensures var pipe := Pipe(90.0, 400.0, PIPE_WIDTH, PIPE_HEIGHT, BottomPipeImage, false);
            var s := State(StartBird().(y := 598.0), [pipe], 5.0, 3.0, false, true, []);
            Tick(s, now).gameover && |Tick(s, now).history| == 2
  {
    var pipe := Pipe(90.0, 400.0, PIPE_WIDTH, PIPE_HEIGHT, BottomPipeImage, false);
    var s := State(StartBird().(y := 598.0), [pipe], 5.0, 3.0, false, true, []);
    assert [pipe][..0] == [];
    assert CountHits(Fall(s), s.pipes) == 1;
    TickHistory(s, now);
  }

  // ---------------------------------------------------------------------------------
  // The mutable game

  class Game {
    var bird: Box
    var pipes: seq<Pipe>
    var velocityY: real
    var score: real
    var gameover: bool
    var gameStarted: bool
    var scoreHistory: seq<Entry>

    /** The bird keeps its x and size and never goes above the board, the score never goes
        below zero, and after a game over the history is sorted with at most ten entries. */
    ghost predicate Valid()
      reads this
    {
      && bird.x == BIRD_X && bird.width == BIRD_WIDTH && bird.height == BIRD_HEIGHT
      && bird.y >= 0.0
      && score >= 0.0
      && (gameover ==> HistoryOk(scoreHistory))
    }

    function Snapshot(): State
      reads this
    {
      State(bird, pipes, velocityY, score, gameover, gameStarted, scoreHistory)
    }

    /** The state of a fresh page: `saved` is the list read back from storage. */
    constructor (saved: seq<Entry>)
      ensures Valid()
      ensures Snapshot() == State(StartBird(), [], 0.0, 0.0, false, false, saved)
    {
      bird := StartBird();
      pipes := [];
      velocityY := 0.0;
      score := 0.0;
      gameover := false;
      gameStarted := false;
      scoreHistory := saved;
    }

    /** init: a new run, keeping the history. */
    method Init()
      modifies this
      ensures Valid()
      ensures Snapshot() == State(StartBird(), [], 0.0, 0.0, false, false, old(scoreHistory))
    {
      bird := StartBird();
      pipes := [];
      velocityY := 0.0;
      score := 0.0;
      gameover := false;
      gameStarted := false;
    }

    /** The keydown handler: space jumps and starts the run, unless the run is over or the
        game panel is hidden. */
    method KeyDown(code: string, gameVisible: bool)
      requires Valid()
      modifies this
      ensures Valid()
      ensures if code == "Space" && !old(gameover) && gameVisible
              then Snapshot() == old(Snapshot()).(velocityY := JUMP_VELOCITY, gameStarted := true)
              else Snapshot() == old(Snapshot())
    {
      if code == "Space" && !gameover && gameVisible {
        velocityY := JUMP_VELOCITY;
        gameStarted := true;
      }
    }

    /** placePipes: append a top and a bottom pipe, but only while a started run is going. */
    method PlacePipes(r: real)
      requires Valid()
      requires 0.0 <= r < 1.0
      modifies this
      ensures Valid()
      ensures if old(gameStarted) && !old(gameover)
              then Snapshot() == old(Snapshot()).(pipes := old(pipes) + [PipePair(r).0, PipePair(r).1])
              else Snapshot() == old(Snapshot())
    {
      if !gameStarted || gameover {
        return;
      }
      var pair := PipePair(r);
      pipes := pipes + [pair.0, pair.1];
    }

    /** gameOver without the timers, storage and overlay: end the run and record its score. */
    method GameOver(now: string)
      requires Valid()
      modifies this
      ensures Valid()
      ensures Snapshot() == old(Snapshot()).(gameover := true,
                                        history := Record(old(scoreHistory), Entry(old(score).Floor, now)))
    {
      ghost var h0 := scoreHistory;
      gameover := true;
      var currentScore := score.Floor;
      scoreHistory := scoreHistory + [Entry(currentScore, now)];
      scoreHistory := SortByScore(scoreHistory);
      if |scoreHistory| > CAPACITY {
        scoreHistory := scoreHistory[..CAPACITY];
      }
      assert scoreHistory == Record(h0, Entry(currentScore, now));
    }

    /** One pass of the pipe loop of update, on pipes[i]: move it, score it, and call
        gameOver if the bird overlaps it. */
    method MovePipe(i: nat, now: string)
      requires Valid() && i < |pipes|
      modifies this
      ensures Valid()
      ensures |pipes| == |old(pipes)|
      ensures forall j :: 0 <= j < |pipes| && j != i ==> pipes[j] == old(pipes[j])
      ensures Sweep(pipes[..i + 1], score, gameover, scoreHistory)
              == StepPipe(bird, Sweep(old(pipes[..i]), old(score), old(gameover), old(scoreHistory)),
                          old(pipes[i]), now)
      ensures bird == old(bird) && velocityY == old(velocityY) && gameStarted == old(gameStarted)
    {
      var pipe := pipes[i];
      pipe := pipe.(x := pipe.x + VELOCITY_X);
      if !pipe.gotThru && bird.x > pipe.x + pipe.width {
        score := score + 0.5;
        pipe := pipe.(gotThru := true);
      }
      pipes := pipes[i := pipe];
      assert pipes[..i + 1] == old(pipes[..i]) + [pipe];
      if Collision(bird, pipe.Box()) {
        GameOver(now);
      }
    }

    /** The pipe loop of update: every pipe in order. */
    method MovePipes(now: string)
      requires Valid()
      modifies this
      ensures Valid()
      ensures Sweep(pipes, score, gameover, scoreHistory)
              == SweepPipes(bird, old(pipes), Sweep([], old(score), old(gameover), old(scoreHistory)), now)
      ensures bird == old(bird) && velocityY == old(velocityY) && gameStarted == old(gameStarted)
    {
      ghost var a0 := Sweep([], score, gameover, scoreHistory);
      ghost var p0 := pipes;
      var i := 0;
      while i < |pipes|
        invariant 0 <= i <= |pipes| == |p0|
        invariant forall j :: i <= j < |pipes| ==> pipes[j] == p0[j]
        invariant Sweep(pipes[..i], score, gameover, scoreHistory) == SweepPipes(bird, p0[..i], a0, now)
        invariant bird == old(bird) && velocityY == old(velocityY) && gameStarted == old(gameStarted)
        invariant Valid()
      {
        MovePipe(i, now);
        SweepPipesPrefix(bird, p0, i, a0, now);
        i := i + 1;
      }
      assert p0[..i] == p0 && pipes[..i] == pipes;
    }

    /** update: one tick of the run. */
    method Update(now: string)
      requires Valid()
      modifies this
      ensures Valid()
      ensures Snapshot() == Tick(old(Snapshot()), now)
    {
      if gameover {
        return;
      }
      ghost var start := Snapshot();
      velocityY := velocityY + GRAVITY;
      bird := bird.(y := bird.y + velocityY);
      bird := bird.(y := Max(bird.y, 0.0));
      assert bird == Fall(start);
      MovePipes(now);
      ghost var a := Sweep(pipes, score, gameover, scoreHistory);
      assert a == SweepPipes(Fall(start), start.pipes, Sweep([], start.score, false, start.history), now);
      pipes := KeepOnScreen(pipes);
      if bird.y > BOARD_HEIGHT {
        GameOver(now);
      }
    }
  }
}

/** Pipes: the board constants, the pair the spawner appends, how one tick moves and
    scores a pipe, and the off-screen pruning. */
module Pipes {
  import opened Geometry

  const BOARD_WIDTH: real := 800.0
  const BOARD_HEIGHT: real := 600.0
  const PIPE_WIDTH: real := 64.0
  const PIPE_HEIGHT: real := 512.0
  /** Horizontal speed of every pipe, per tick. */
  const VELOCITY_X: real := -3.0
  /** Vertical opening between the top and the bottom pipe of a pair. */
  const OPENING_SPACE: real := BOARD_HEIGHT / 3.5

  /** Which sprite a pipe is drawn with. */
  datatype PipeImage = TopPipeImage | BottomPipeImage

  /** A pipe; gotThru records that the bird has already scored on it. */
  datatype Pipe = Pipe(x: real, y: real, width: real, height: real, image: PipeImage, gotThru: bool)
  {
    function Box(): Box { Geometry.Box(x, y, width, height) }
  }

  /** The pair placePipes appends, for the random draw r in [0, 1). */
  function PipePair(r: real): (pair: (Pipe, Pipe))
    requires 0.0 <= r < 1.0
    ensures pair.0.x == BOARD_WIDTH && pair.1.x == BOARD_WIDTH
    ensures pair.0.width == PIPE_WIDTH == pair.1.width
    ensures pair.0.height == PIPE_HEIGHT == pair.1.height
    ensures !pair.0.gotThru && !pair.1.gotThru
    ensures pair.0.image == TopPipeImage && pair.1.image == BottomPipeImage
    ensures pair.0.y == -128.0 - 256.0 * r
    ensures -384.0 < pair.0.y <= -128.0
    ensures pair.1.y - (pair.0.y + pair.0.height) == OPENING_SPACE
    ensures pair.0.y + pair.0.height < pair.1.y
  {
    var pipeY := 0.0;
    var randomPipeY := pipeY - PIPE_HEIGHT / 4.0 - r * (PIPE_HEIGHT / 2.0);
    var top := Pipe(BOARD_WIDTH, randomPipeY, PIPE_WIDTH, PIPE_HEIGHT, TopPipeImage, false);
    var bottom := Pipe(BOARD_WIDTH, top.y + PIPE_HEIGHT + OPENING_SPACE, PIPE_WIDTH, PIPE_HEIGHT,
                       BottomPipeImage, false);
    (top, bottom)
  }

  /** The pipe one tick later, before scoring. */
  function Shift(p: Pipe): Pipe {
    p.(x := p.x + VELOCITY_X)
  }

  /** The scoring test of update, applied to the already shifted pipe. */
  predicate Passed(bird: Box, p: Pipe) {
    !p.gotThru && bird.x > p.x + p.width
  }

  /** What the loop body of update makes of one pipe: shift it, then mark it scored. */
  function Advance(bird: Box, p: Pipe): Pipe {
    var q := Shift(p);
    if Passed(bird, q) then q.(gotThru := true) else q
  }

  function AdvanceAll(bird: Box, ps: seq<Pipe>): (r: seq<Pipe>)
    ensures |r| == |ps|
  {
    seq(|ps|, i requires 0 <= i < |ps| => Advance(bird, ps[i]))
  }

  /** Every pipe moves left by 3; its flag only goes from false to true, and does so exactly
      when the bird is past the moved pipe's right edge; nothing else about it changes. */
  lemma AdvanceAllMoves(bird: Box, ps: seq<Pipe>)
    ensures forall i :: 0 <= i < |ps| ==>
              var q := AdvanceAll(bird, ps)[i];
              && q.x == ps[i].x - 3.0 && q.y == ps[i].y
              && q.width == ps[i].width && q.height == ps[i].height && q.image == ps[i].image
              && (ps[i].gotThru ==> q.gotThru)
              && (q.gotThru <==> ps[i].gotThru || bird.x > ps[i].x - 3.0 + ps[i].width)
  {
  }

  /** How many pipes the bird passes for the first time in this tick. */
  function CountPasses(bird: Box, ps: seq<Pipe>): nat {
    if ps == [] then 0
    else CountPasses(bird, ps[..|ps| - 1]) + (if Passed(bird, Shift(ps[|ps| - 1])) then 1 else 0)
  }

  /** How many pipes the bird overlaps once they have moved. */
  function CountHits(bird: Box, ps: seq<Pipe>): nat {
    if ps == [] then 0
    else CountHits(bird, ps[..|ps| - 1]) + (if Collision(bird, Shift(ps[|ps| - 1]).Box()) then 1 else 0)
  }

  /** The condition of the filter in update. */
  predicate OnScreen(p: Pipe) {
    p.x > -p.width
  }

  /** `pipes.filter(pipe => pipe.x > -pipe.width)`. */
  function KeepOnScreen(ps: seq<Pipe>): (r: seq<Pipe>)
    ensures |r| <= |ps|
    ensures forall p :: p in r <==> p in ps && OnScreen(p)
  {
    if ps == [] then []
    else (if OnScreen(ps[0]) then [ps[0]] else []) + KeepOnScreen(ps[1..])
  }

  /** Filtering distributes over concatenation: the survivors keep their relative order. */
  lemma {:induction false} KeepOnScreenAppend(a: seq<Pipe>, b: seq<Pipe>)
    ensures KeepOnScreen(a + b) == KeepOnScreen(a) + KeepOnScreen(b)
  {
    if a != [] {
      assert (a + b)[1..] == a[1..] + b;
      KeepOnScreenAppend(a[1..], b);
    } else {
      assert a + b == b;
    }
  }

  /** A pipe that is on screen survives as itself; one that is off screen is dropped. */
  lemma KeepOnScreenSingle(p: Pipe)
    ensures KeepOnScreen([p]) == if OnScreen(p) then [p] else []
  {
    assert [p][1..] == [];
  }

  /** A pipe that has already scored is never counted again. */
  lemma {:induction false} CountPassesOnlyFresh(bird: Box, ps: seq<Pipe>)
    requires forall i :: 0 <= i < |ps| ==> ps[i].gotThru
    ensures CountPasses(bird, ps) == 0
  {
    if ps != [] {
      CountPassesOnlyFresh(bird, ps[..|ps| - 1]);
    }
  }

  /** How many pipes have not scored yet. */
  function Fresh(ps: seq<Pipe>): nat {
    if ps == [] then 0
    else Fresh(ps[..|ps| - 1]) + (if ps[|ps| - 1].gotThru then 0 else 1)
  }

  /** How many flags go from false to true between two pipe lists of the same length. */
  function Flips(before: seq<Pipe>, after: seq<Pipe>): nat
    requires |before| == |after|
  {
    if before == [] then 0
    else Flips(before[..|before| - 1], after[..|after| - 1])
         + (if !before[|before| - 1].gotThru && after[|after| - 1].gotThru then 1 else 0)
  }

  /** The passes counted in one tick are exactly the flags the tick sets, so a pipe that has
      already scored adds nothing; and no more pipes pass than had not scored yet. */
  lemma {:induction false} CountPassesAreFlips(bird: Box, ps: seq<Pipe>)
    ensures CountPasses(bird, ps) == Flips(ps, AdvanceAll(bird, ps))
    ensures CountPasses(bird, ps) <= Fresh(ps)
  {
    if ps != [] {
      var init := ps[..|ps| - 1];
      CountPassesAreFlips(bird, init);
      assert AdvanceAll(bird, ps)[..|ps| - 1] == AdvanceAll(bird, init);
    }
  }

  /** No pipe is hit exactly when the count of hits is zero. */
  lemma {:induction false} CountHitsZero(bird: Box, ps: seq<Pipe>)
    ensures CountHits(bird, ps) == 0 <==>
            forall i :: 0 <= i < |ps| ==> !Collision(bird, Shift(ps[i]).Box())
  {
    if ps != [] {
      var init := ps[..|ps| - 1];
      CountHitsZero(bird, init);
      assert forall i :: 0 <= i < |init| ==> init[i] == ps[i];
    }
  }
}

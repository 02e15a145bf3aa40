# Flappy Bird game state, in Dafny

This project models the game logic of a browser Flappy Bird clone (`game.js`). One run
consists of a bird that falls under gravity and jumps on the space key, and pairs of pipes
that scroll left towards it. The bird scores half a point per pipe it passes. A run ends
when the bird overlaps a pipe or falls below the board. When it ends, the run's floored
score goes into a high-score list that is kept sorted and never holds more than ten
entries.

The model has four modules:

- `Geometry` (`geometry.dfy`): the `Box` of a sprite and the strict bounding-box `Collision` test.
- `ScoreHistory` (`history.dfy`): history entries and the `Record` step of `gameOver`. That
  step appends the entry, sorts the list by score in descending order and keeps the ten
  best. The library sort is modelled as a stable insertion sort, `SortByScore`.
- `Pipes` (`pipes.dfy`): board and pipe constants, the pair `placePipes` appends
  (`PipePair`), what one tick does to a pipe (`Advance`) and the off-screen filter
  (`KeepOnScreen`).
- `FlappyGame` (`game.dfy`): the run state as a value (`State`) and one call of `update`
  as a function of it (`Tick`, built from the pipe loop `SweepPipes`). It also holds the
  lemmas about them and the class `Game`. `Game` has the fields `bird`, `pipes`,
  `velocityY`, `score`, `gameover`, `gameStarted` and `scoreHistory`. Its methods `Init`,
  `KeyDown`, `PlacePipes`, `GameOver` and `Update` change those fields in place. `Update`
  is proved to leave exactly the state `Tick` gives, and every method keeps the object
  invariant `Valid()`: the bird never goes above the board, the score never goes below
  zero, and once the run is over the history is sorted and at most ten long.

Positions, velocities and the score are exact `real`s (0.7, 0.5, 600/3.5). A pipe is a
value in the `pipes` sequence. The source creates a new object for every pipe, so no two
slots alias. The loop of `update` keeps going after a collision, so one tick can call
`gameOver` several times: once per overlapped pipe and once more for the ground. Each
call adds its own history entry. The model does the same (`TickHistory`,
`GroundAndPipeInOneTick`).

The collision test uses strict comparisons, so boxes that only touch do not collide.

## Model

| member | source | states |
|---|---|---|
| Geometry.CollisionIffCommonInteriorPoint | game.js:165-169 | for boxes of positive size, the test holds exactly when their open interiors share a point |
| Geometry.CollisionSymmetric | game.js:165-169 | the test gives the same answer with its arguments swapped |
| Geometry.TouchingBoxesDoNotCollide | game.js:165-169 | boxes that only meet along an edge do not collide |
| ScoreHistory.FirstBelow | game.js:182 | the length of the leading run of entries scoring at least v: all before it score at least v, the entry at it scores less |
| ScoreHistory.Insert | game.js:182 | inserting adds exactly the new entry (as a multiset) and keeps a descending list descending |
| ScoreHistory.InsertKeepsOrder | game.js:182 | placing the entry at the first lower score keeps a descending list descending |
| ScoreHistory.InsertLowest | game.js:182 | an entry beaten by every entry goes to the end of the list |
| ScoreHistory.SortByScore | game.js:182 | the sorted list is in descending score order and is a permutation of the input |
| ScoreHistory.SortByScoreKeepsSorted | game.js:182 | sorting leaves an already sorted list unchanged, so entries with equal scores keep their order |
| ScoreHistory.TopScoresShape | game.js:185-187 | truncation keeps a sorted list sorted and leaves min(length, 10) entries |
| ScoreHistory.TopScoresKeepsBest | game.js:185-187 | truncation keeps a sub-multiset, and every dropped entry scores no more than every kept one |
| ScoreHistory.Record | game.js:177-187 | after gameOver the history is sorted, has at most ten entries, and its length is min(old length + 1, 10) |
| ScoreHistory.RecordKeepsBest | game.js:179-187 | the new history comes from the old list plus the new entry, and holds the highest-scoring of them |
| ScoreHistory.RecordIntoSorted | game.js:179-187 | on a sorted history the new entry goes right after every entry that scores at least as much |
| ScoreHistory.RecordKeepsNewEntryWhenRoom | game.js:179-187 | with fewer than ten entries, the new entry is always kept |
| Pipes.PipePair | game.js:102-124 | both pipes start at x = 800 with width 64, height 512 and not yet scored; the top pipe's y is -128 - 256·r, so it lies in (-384, -128]; the bottom pipe starts 600/3.5 below the top pipe's end |
| Pipes.AdvanceAllMoves | game.js:139-147 | every pipe moves left by exactly 3 and keeps y, size and image; its flag only goes from false to true, and it does so exactly when the bird is past the moved pipe's right edge |
| Pipes.KeepOnScreen | game.js:156 | a pipe survives the filter exactly when it was in the list and satisfies x > -width |
| Pipes.KeepOnScreenAppend | game.js:156 | filtering distributes over concatenation, so the survivors keep their relative order |
| Pipes.KeepOnScreenSingle | game.js:156 | a single pipe survives as itself when it is on screen and is dropped otherwise |
| Pipes.CountPassesOnlyFresh | game.js:144-147 | a list of pipes that have all scored already yields no passes |
| Pipes.CountPassesAreFlips | game.js:144-147 | the passes counted in a tick are exactly the pipes whose flag goes from false to true, so a scored pipe adds nothing even in a mixed list, and there are at most as many passes as unscored pipes |
| Pipes.CountHitsZero | game.js:150-152 | the collision count is zero exactly when the bird overlaps none of the moved pipes |
| FlappyGame.SweepPipesPrefix | game.js:139-153 | loop support for `MovePipes`: unfolds the loop function by one iteration, so the processed prefix up to pipe i is one more step on pipes[i] |
| FlappyGame.SweepMovesPipes | game.js:139-147 | the loop visits the pipes in order and leaves each one moved and scored as `Advance` says |
| FlappyGame.SweepScore | game.js:143-147 | the loop adds exactly 0.5 per pipe passed for the first time, so the score never drops |
| FlappyGame.SweepGameOver | game.js:149-152 | the loop ends the run exactly when the bird overlaps some moved pipe |
| FlappyGame.SweepHistory | game.js:149-152 | each overlapped pipe calls gameOver once: the history gains one entry per hit up to ten, stays as it was without hits, and is sorted after any hit |
| FlappyGame.TickWhenOver | game.js:131 | once the run is over, update changes nothing |
| FlappyGame.TickMovesBird | game.js:133-136 | velocity grows by 0.7; the new y is max(old y + new velocity, 0), so it is never negative; the bird's x and size and the started flag stay |
| FlappyGame.TickScore | game.js:139-147 | one tick adds 0.5 per pipe passed for the first time, so the score never decreases |
| FlappyGame.TickScoreCountsFlips | game.js:143-147 | one tick adds exactly 0.5 per flag it sets on a pipe, and at most 0.5 per pipe that had not scored |
| FlappyGame.TickNoRescoring | game.js:144-147 | when every pipe has already scored, the score stays the same |
| FlappyGame.TickPipes | game.js:139-156 | the new pipe list is the moved pipes, filtered in order; every survivor has x > -width and no moved pipe on screen is dropped |
| FlappyGame.TickGameOver | game.js:149-161 | a tick ends the run exactly when the bird overlaps a moved pipe or its y exceeds 600 |
| FlappyGame.TickHistory | game.js:149-161 | every detection (each overlapped pipe, then the ground) adds one entry up to ten; no detection leaves the history as it was; a tick that ends the run leaves a sorted history of at most ten entries |
| FlappyGame.GroundAndPipeInOneTick | game.js:150-161 | an example tick with an empty history: the bird falls below the board while overlapping one bottom pipe, so the pipe hit and the ground both call gameOver and the history gains two entries |
| FlappyGame.Game.constructor | game.js:17-61 | a fresh page: bird at (100, 300) with size 32x26, no pipes, zero velocity and score, run neither started nor over, history as read back from storage |
| FlappyGame.Game.Init | game.js:68-80 | a new run resets bird, pipes, velocity, score and both flags, and keeps the history |
| FlappyGame.Game.KeyDown | game.js:230-235 | space on a visible game that is not over sets the velocity to -7 and starts the run; any other input changes nothing |
| FlappyGame.Game.PlacePipes | game.js:99-127 | while a started run is not over, exactly the two pipes of `PipePair` are appended; otherwise nothing changes |
| FlappyGame.Game.GameOver | game.js:171-187 | sets the game-over flag and replaces the history with `Record` of the floored score; nothing else changes |
| FlappyGame.Game.MovePipe | game.js:140-152 | one iteration on pipes[i]: the processed prefix, score, flag and history become one more loop step, and other pipes are untouched |
| FlappyGame.Game.MovePipes | game.js:139-153 | the in-place pipe loop leaves exactly the state of the loop function `SweepPipes` |
| FlappyGame.Game.Update | game.js:130-162 | the new state is exactly `Tick` of the old one, and the object invariant is kept |

## Left out

- Drawing (`draw`) and the score dashboard (`displayScores`): they only render.
- Button handlers and panel toggling: UI navigation. The visibility of the game panel
  becomes the `gameVisible` parameter of `KeyDown`.
- Timers (`setInterval`, `clearInterval`, `requestAnimationFrame`): `Update`, `PlacePipes`
  and `KeyDown` can be called in any order instead. The effect of `clearInterval` in
  `gameOver` is covered by the fact that `Update` and `PlacePipes` do nothing once the run
  is over.
- `localStorage` and JSON: the history is an in-memory sequence. The list read at start-up
  is the constructor's `saved` argument, and writing it back is not modelled.
- Setting the overlay text and showing it in `gameOver`: DOM only.
- `new Date().toLocaleString()` becomes the opaque `now` string argument. All `gameOver`
  calls within one tick receive the same string.
- `Math.random()` becomes the argument `r` of `PlacePipes`, with 0 <= r < 1.
- Image loading and `Promise.all`: asynchronous asset loading.
- Sprite references on pipes become the two-valued `PipeImage`.
- IEEE-754 rounding: the model computes with exact reals.
- SortByScore: stability is stated only for input that is already sorted
  (`SortByScoreKeepsSorted`), which is the case for every list `gameOver` writes. For an
  arbitrary stored list, only "sorted and a permutation" is proved.

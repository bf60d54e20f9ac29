# 2048 board engine, modelled in Dafny

This project models the board engine of a 2048 player (`game.rs`). The engine covers:

- the four actions and their unit directions;
- grid coordinates and their validity;
- the order in which a move visits the cells;
- the landing-cell search `get_first_free`;
- `Board::move`, which slides and merges the tiles;
- the legal-action filter `get_actions`;
- tile spawns (`add_space`, `add_random`, `new`);
- the board queries (`get_empty`, `count_empty`, `get_best_tile`, `summary`).

A board is a value: a sequence of 16 integers, row-major (`x + 4y`), where 0 is an empty cell.

The modules follow the structure of the source:

- `Coords` (coords.dfy): `Action`, `Cord`, `dir`, `min_cord`, `is_valid`, `over` and `get_traversal`. It also defines *line coordinates*: `Along(a, l, q)` is the cell at distance `q` from the destination edge of `a`, on the `l`-th line that a move in direction `a` visits. For Up, game.rs:65-67 builds `Cord(i / 4, i % 4)`, so a move visits the board column by column, each column from row 0.
- `Boards` (board.dfy): the board value, `get`, `get_empty`, `empty`, `add_space`, `add_random` and `new`. It also holds the two counting loops, `count_empty` and `get_best_tile`, as methods proved against functions.
- `Moves` (move.dfy): `get_first_free` as a method with the cursor loop of the source, and `Board::move` as a method over two scratch arrays (`new` and `merged` in the source). Both are proved equal to pure specifications, `FirstFree` and `Moved` (a fold of `Place` over the traversal). The module also holds `get_actions`.
- `Slide` (slide.dfy): what a move does to one line of four cells. The reference is "drop the empties, merge equal neighbours pairwise from the edge, pad with empties" (`SlideLine`). The scan of `move` is seen as tiles arriving one at a time at a pile. The module proves that the scan and the reference agree, that the tile sum is preserved, and that merges happen only once.
- `MoveLines` (move_lines.dfy): the main theorem, `MoveIsSlide`. The move turns every line of the board, read from the destination edge, into the reference slide of that line, and no other board has this property. Three consequences follow:
  - the tile sum is preserved;
  - a move changes nothing exactly when every line is settled;
  - an action is legal exactly when some line can still slide or merge.
- `Scenarios` (scenarios.dfy): the unit tests of `game.rs`, stated as lemmas about the model, plus one extra example that is not among those tests (`CornerRight`).

## Model

| member | source | states |
|---|---|---|
| Coords.Dir | game.rs:15-22 | each action's step is a unit vector along one axis |
| Coords.Over | game.rs:50-59 | the neighbour one step in direction a is returned exactly when it is on the board, and it is that cell |
| Coords.MinCord | game.rs:24-32 | the edge cell of start's line: valid, with no neighbour beyond it in direction a, sharing start's column (Up/Down) or row (Left/Right) |
| Coords.IndexRoundTrip | game.rs:175-186 | the vector index `x + 4y` is a bijection between the valid coordinates and 0..15 |
| Coords.AlongRoundTrip | game.rs:39-48 | the cell at line l, distance q is valid (0 <= x, y < 4) iff l and q are in 0..3; every valid cell has exactly one line and distance |
| Coords.AlongOver | game.rs:84-97 | along a line, `over` steps one cell toward the edge (none at the edge), `min_cord` is the edge cell, and stepping back by `dir` moves one cell away from the edge |
| Coords.Traversal | game.rs:63-82 | the traversal has 16 cells, all valid |
| Coords.TraversalOrder | game.rs:63-82 | position 4l + q of the traversal of a is the cell at distance q on line l: lines one after the other, each from the destination edge backwards (Up goes column by column) |
| Coords.TraversalCoversBoard | game.rs:63-82 | the traversal has no repeated cell and contains every valid cell |
| Boards.GetEmpty | game.rs:116-125 | the result is strictly increasing and holds exactly the indices of the empty cells |
| Boards.Empty | game.rs:106-109 | every cell of the empty board is 0 |
| Boards.CountEmpty | game.rs:188-196 | the loop's count equals the length of `get_empty` |
| Boards.AddSpace | game.rs:129-134 | exactly the given cell is set; filling an empty cell with a tile lowers the empty count by one |
| Boards.OverwriteBelow | game.rs:129-134 | overwriting one cell changes the empty list only at that cell (one fewer when a tile fills an empty cell, one more when a tile is cleared) |
| Boards.AddRandom | game.rs:164-173 | the chosen empty cell receives a 2 or a 4, nothing else changes, and the empty count drops by one |
| Boards.New | game.rs:111-114 | the opening board has 14 empty cells |
| Boards.MaxTile | game.rs:207-215 | the result is at least 0, bounds every value, and is 0 or one of the values |
| Boards.GetBestTile | game.rs:207-215 | the scanning loop computes MaxTile of the board |
| Boards.Summarize | game.rs:217-220 | the summary's best tile is non-negative, no smaller than any cell, and 0 or a cell's value |
| Moves.FirstFree | game.rs:84-97 | the landing cell is a valid cell |
| Moves.FirstFreeNearest | game.rs:84-97 | the landing cell is on start's line, no farther from the edge than start; it is empty unless it is start; every cell between it and the edge holds a tile |
| Moves.GetFirstFree | game.rs:84-97 | the cursor loop from `min_cord` back toward start returns FirstFree |
| Moves.ArriveTile | game.rs:144-157 | a tile that slid to its landing cell doubles the equal, not yet merged tile beyond it (and flags it), or is written at the landing cell |
| Moves.PlaceTile | game.rs:140-158 | one loop iteration: an empty source cell changes nothing; a tile lands or merges as in Arrive |
| Moves.SweepCells | game.rs:137-161 | the loop over a list of cells builds the fold of Place over that list, starting from two empty boards |
| Moves.Move | game.rs:136-162 | `move` returns Moved(b, a), the fold over the traversal of a |
| Moves.Keep | game.rs:198-205 | each action is kept exactly when its flag is set, and the result follows the order Up, Down, Left, Right |
| Moves.Actions | game.rs:198-205 | an action is listed exactly when its move changes the board, in the order Up, Down, Left, Right |
| Moves.ActionIn | game.rs:198-205 | for every action a, a is legal iff move(a) differs from the board |
| Moves.NoActionsIffStuck | game.rs:198-205 | no legal action exactly when no move changes the board |
| Slide.GatherIsMerge | game.rs:140-157 | on one line, the arrive-and-merge scan of `move` (with its merged flags) yields the reference merge of the line's tiles |
| Slide.SlideLineSum | game.rs:150-152 | sliding a line preserves the sum of its values |
| Slide.MergeRun | game.rs:150-152 | merge once: a run of k tiles v becomes k/2 tiles 2v, plus one v when k is odd |
| Slide.MergeFixed | game.rs:150-152 | merging changes nothing iff no two neighbours are equal |
| Slide.SlideFixed | game.rs:136-162 | a line is unchanged by a slide iff it is settled: packed against the edge, with no equal neighbouring tiles |
| MoveLines.FirstFreeOnLine | game.rs:84-97 | on a line holding tiles packed against the edge, the landing cell of every later cell is the first cell after those tiles |
| MoveLines.MovedByLines | game.rs:136-162 | every line of the moved board is the reference slide of the same line of b |
| MoveLines.MoveIsSlide | game.rs:136-162 | move(b, a) == r iff every line of r is the reference slide of the line of b (so the result is unique) |
| MoveLines.MoveKeepsSum | game.rs:136-162 | a move preserves the sum of the board's values |
| MoveLines.StuckIffSettled | game.rs:136-162 | a move leaves the board unchanged iff every line in its direction is settled |
| MoveLines.LegalIffUnsettled | game.rs:198-205 | `get_actions` lists a iff some line in direction a is not settled |
| Scenarios.GetEmptyExample | game.rs:246-252 | tiles at 2 and 5 leave empties [0, 1, 3, 4, 6, ..., 15] |
| Scenarios.FirstFreeLeftTop | game.rs:262-265 | (2,0) moved Left lands at (0,0) |
| Scenarios.FirstFreeLeftSecond | game.rs:262-266 | (1,1) moved Left lands at (0,1) |
| Scenarios.FirstFreeUpEdge | game.rs:262-267 | (2,0) moved Up stays at (2,0) |
| Scenarios.FirstFreeDown | game.rs:262-268 | (1,1) moved Down lands at (1,3) |
| Scenarios.FirstFreeUpBlocked | game.rs:262-271 | with (2,0) occupied, (2,1) moved Up stays at (2,1) |
| Scenarios.ColumnUp | game.rs:276-282 | a full column 2, 4, 8, 16 does not move Up |
| Scenarios.ColumnDown | game.rs:276-282 | nor Down |
| Scenarios.ColumnLeft | game.rs:276-282 | moved Left it reaches column 0 |
| Scenarios.ColumnRight | game.rs:276-282 | moved Right it reaches column 3 |
| Scenarios.ColumnActions | game.rs:276-282 | get_actions of that board is [Left, Right] |
| Scenarios.TwoColumnsUp | game.rs:276-288 | with column 0 holding 3, 5, 9, 17, the board does not move Up |
| Scenarios.TwoColumnsDown | game.rs:276-288 | nor Down |
| Scenarios.TwoColumnsLeft | game.rs:276-288 | nor Left |
| Scenarios.TwoColumnsRight | game.rs:276-288 | moved Right both columns reach the right edge |
| Scenarios.TwoColumnsActions | game.rs:276-288 | get_actions of that board is [Right] |
| Scenarios.SimpleMoveLeft | game.rs:294-305 | 4 at index 2 and 2 at index 5, moved Left, give 4 at 0 and 2 at 4 |
| Scenarios.SimpleMoveDown | game.rs:294-313 | the same board moved Down gives 2 at 13 and 4 at 14 |
| Scenarios.SimpleMerge | game.rs:317-328 | two 2s at (1,1) and (1,2) moved Up merge into a 4 at (1,0) |
| Scenarios.MergeAcrossGap | game.rs:332-344 | 2s at (0,3) and (3,3) moved Left merge across the gap into a 4 at (0,3) |
| Scenarios.MultiMerge | game.rs:348-360 | 2, 2, 4 moved Up gives 4, 4: the new 4 does not merge again |
| Scenarios.CornerRight | game.rs:129-162 | a 2 written at index 0 of the empty board and moved Right lands at index 3 |

## Left out

- Randomness. `add_random` draws a float to choose 2 (below 0.9) or 4, and picks a random empty cell. `AddRandom` and `New` take both choices as parameters: `pick` indexes `get_empty` and `four` selects the value. The 0.9 probability is not modelled.
- The third (`f32`) component of the `add_space` argument is ignored by the source and absent from `AddSpace`.
- `AddRandom`: on a full board the source fails when it unwraps an empty choice. The model requires `pick < |GetEmpty(b)|` instead of modelling that failure, and `New` requires its two picks to be in range.
- `AddSpace`: the source fails on an index outside 0..15. The model takes `index < 16` as a precondition.
- `Get`: the source fails on an invalid coordinate. The model takes validity as a precondition.
- `get_mut`: the source does not check the coordinate, and an invalid coordinate would wrap the index. The model writes only valid cells, as every call inside `move` does.
- Integer width. The cells are unbounded integers, so an overflow of `value * 2` in the source's machine integers is not modelled.
- Text rendering (`fmt::Show` for `Board`) and printing are not modelled.
- The expectimax player (ai.rs) and the entry points (main.rs, repl.rs, batch.rs, watch.rs) are not part of this model.
- `Summary` is modelled only through its single field, `best_tile`.
- `move` in the source builds its result in two local boards. The `Move` method does the same on two arrays, but a `Board` stays a value. No board is shared or aliased.

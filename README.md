# Grid pathfinding engine, modelled in Dafny

This project models the pathfinding engine of the visualiser, the class `Pathfinder` in
`src/ALG_7_Graphen_Pathfinding_Visualizer/pathfinding_algorithm.py`, and proves properties of it.
The engine has five parts:

- `dijkstra`: unit-cost Dijkstra over a priority queue of `(key, count, vertex)` triples;
- `a_star_search`: the same loop, keyed by `g_score + Manhattan distance`;
- `__reconstruct_path`: walks `came_from` back from the destination and marks each predecessor as part of the path;
- `__manhatten_distance`: `|x1 - x2| + |y1 - y2|`;
- `generate_maze`: applies `n + 1` random picks, each making the picked cell a wall unless it is the start or the destination.

How the program's entities appear here:

- A vertex is its index `row * size + col` in the row-major grid.
- The grid is an `array<State>` held by the class `Pathfinding.Pathfinder`.
- The states are named after the `make_*` calls.
- Each vertex's neighbour list is an input `neighbors: seq<seq<nat>>` whose entries lie in the grid (`Paths.Adjacency`).
- `float("inf")` is `None`.
- `queue.PriorityQueue` is a sequence; getting from it removes the entry that is smallest in `(key, count)` order (`Frontier.Get`).

The start and the destination are `Option<nat>`: the user interface builds a `Pathfinder` whenever it handles an event, before both endpoints are placed, and passes `None` for a missing one. `generate_maze` runs without endpoints, and a missing endpoint then spares no cell. The searches are only started once both endpoints are placed, so they require both to be set (`Pathfinder.Ready`).

The two searches share one loop, `Pathfinder.Traverse`, parameterised by a `Search.Strategy`. `Dijkstra` queues by cost. `AStar` queues by cost plus the Manhattan distance and also keeps `f_score`.

The search bookkeeping is a value, `Search.Bookkeeping`. It holds:

- the cost map (`distance` / `g_score`);
- `f_score`;
- `came_from`;
- the queue;
- the frontier set (`visited` / `open_set`);
- `count`.

The pure step functions `Init`, `Pop` and `Relax` (with its improving branch `Lower`) state what one statement group of the source does to it. `RelaxAll` is the whole neighbour loop.

`Execution.Run` is the whole outer loop as a function of the bookkeeping: pop, stop on the destination, otherwise `RelaxAll` and go on, stop with `False` on an empty queue. It takes a unary step bound (`Execution.Fuel`) so that it is defined without the loop invariant. `Execution.Outcome` runs it from `Init` with `Measure(Init)` steps. `Traverse` proves that this bound is never reached and that its own result and final bookkeeping are exactly `Outcome`, so the bookkeeping, and with it every marking, is fully determined by the inputs.

The imperative methods perform one step each:

- `Traverse` runs the outer while loop.
- `Iterate` is one pass of it: the pop, then `Expand` unless the destination was popped.
- `Expand` runs the neighbour for-loop (`RelaxNeighbors`) and then marks the vertex.
- `RelaxNeighbor` performs one pass of that for-loop.
- `MarkExpanded` marks the expanded vertex as visited.
- `FinishPath` is the success branch.

Each method first advances the bookkeeping through those functions, then updates the grid cells as the source does.

The loop invariant `Search.Steady` has three parts.

- `Search.Core`:
  - the start keeps cost 0 and has no predecessor;
  - `came_from` is a tree of strictly cheaper neighbours;
  - the frontier set is exactly the set of queued vertices, each queued once;
  - tickets grow with insertion;
  - each A* f-score is the cost plus the Manhattan distance;
  - every finite cost is below the vertex count.
- Closure: every discovered vertex outside the frontier has all its neighbours discovered.
- The destination stays in the frontier until it is popped.

Three results follow from that invariant:

- Each search returns `True` exactly when the destination is reachable from the start.
- On success, the `came_from` chain of the destination, read backwards, is a path from the start to the destination.
- The grid ends in the marking the source produces. On failure it is explicit: exactly the cells reachable from the start, other than the start and the destination, are visited, and every other cell keeps its state. On success every cell of the destination's chain is a path cell, the start is the start, and every other cell has the marking of the final bookkeeping `Outcome`.

The loop terminates. The measure is the sum of all costs, with an undiscovered vertex counting as the vertex count, plus the queue length. A pop shrinks the queue, and every insertion comes with a strict decrease of a cost.

## Model

| member | source | states |
|---|---|---|
| Geometry.Manhattan | src/ALG_7_Graphen_Pathfinding_Visualizer/pathfinding_algorithm.py:168-181 | The Manhattan distance is a natural number. It is zero exactly when the two positions coincide, and it is at least each coordinate's absolute difference. |
| Geometry.ManhattanSymmetric | src/ALG_7_Graphen_Pathfinding_Visualizer/pathfinding_algorithm.py:179-181 | The distance is the same in both directions. |
| Geometry.ManhattanTriangle | src/ALG_7_Graphen_Pathfinding_Visualizer/pathfinding_algorithm.py:179-181 | The distance obeys the triangle inequality. |
| Geometry.CellOf | src/ALG_7_Graphen_Pathfinding_Visualizer/pathfinding_algorithm.py:109-110 | The position a vertex index stands for. The column is within the grid width, and `row * size + col` gives the index back. |
| Geometry.IndexInGrid | src/ALG_7_Graphen_Pathfinding_Visualizer/pathfinding_algorithm.py:162-166 | A picked in-bounds `(row, col)` names a cell of the grid. |
| Frontier.ArgMin | src/ALG_7_Graphen_Pathfinding_Visualizer/pathfinding_algorithm.py:58 | The index of the queue entry that no other entry precedes in `(key, count)` order. |
| Frontier.GetProperties | src/ALG_7_Graphen_Pathfinding_Visualizer/pathfinding_algorithm.py:58-59 | `queue.get()` removes exactly one entry: the rest with that entry added back is the queue as a multiset. The entry precedes every remaining one, and among equal keys it has the earliest ticket. The queued vertices lose exactly the popped vertex. Distinct vertices and increasing tickets are kept. |
| Frontier.PutProperties | src/ALG_7_Graphen_Pathfinding_Visualizer/pathfinding_algorithm.py:75-78 | `queue.put` with the next ticket adds exactly the new vertex to the queued vertices. Vertices stay distinct, and the tickets stay below the incremented `count`. |
| Frontier.RemovePreserves | src/ALG_7_Graphen_Pathfinding_Visualizer/pathfinding_algorithm.py:58 | Removing an entry keeps the queued vertices distinct and the tickets bounded by `count`. |
| Frontier.RemoveVertices | src/ALG_7_Graphen_Pathfinding_Visualizer/pathfinding_algorithm.py:58-59 | Removing an entry removes exactly its vertex from the queued vertices. |
| Frontier.Put | src/ALG_7_Graphen_Pathfinding_Visualizer/pathfinding_algorithm.py:77 | `queue.put` appends the entry and keeps every queued entry (also lines 46, 104 and 141). |
| Frontier.Get | src/ALG_7_Graphen_Pathfinding_Visualizer/pathfinding_algorithm.py:58 | `queue.get()` returns a queued entry that no entry precedes in `(key, count)` order, and a queue one shorter holding only queued entries. |
| Frontier.RemovedMultiset | src/ALG_7_Graphen_Pathfinding_Visualizer/pathfinding_algorithm.py:58 | Removing one entry takes exactly that entry out of the multiset of entries. |
| Paths.Extend | src/ALG_7_Graphen_Pathfinding_Visualizer/pathfinding_algorithm.py:68 | A path followed by a neighbour of its last vertex is a path. |
| Paths.ClosedHoldsPaths | src/ALG_7_Graphen_Pathfinding_Visualizer/pathfinding_algorithm.py:68 | A path can only end inside a set that holds its first vertex and is closed under the neighbour relation. |
| Predecessors.ChainDescends | src/ALG_7_Graphen_Pathfinding_Visualizer/pathfinding_algorithm.py:191-193 | The chain of predecessors walked from `v` has these properties. It is empty exactly when `v` has no predecessor. Each step follows `came_from`. Each later vertex is strictly cheaper than every earlier one and than `v`. It ends at a vertex without a predecessor and never revisits `v`. |
| Predecessors.Chain | src/ALG_7_Graphen_Pathfinding_Visualizer/pathfinding_algorithm.py:191-193 | The vertices `__reconstruct_path` steps to from `v`. The chain is empty exactly when `v` has no predecessor, and no longer than the cost of `v`. |
| Maze.MazeCells | src/ALG_7_Graphen_Pathfinding_Visualizer/pathfinding_algorithm.py:161-166 | After the picks, a cell is a wall if it was picked and is neither the start nor the destination. Otherwise it keeps its state. |
| Maze.MazeSparesEndpoints | src/ALG_7_Graphen_Pathfinding_Visualizer/pathfinding_algorithm.py:165 | The maze never changes the start or the destination. |
| Maze.MazeOnlyAddsWalls | src/ALG_7_Graphen_Pathfinding_Visualizer/pathfinding_algorithm.py:161-166 | An existing wall stays a wall, and a cell that was never picked is unchanged. |
| Maze.MarkPick | src/ALG_7_Graphen_Pathfinding_Visualizer/pathfinding_algorithm.py:162-166 | One iteration: the picked cell becomes a wall exactly when it is neither a placed start nor a placed destination; every other cell is unchanged. |
| Maze.MarkPickAt | src/ALG_7_Graphen_Pathfinding_Visualizer/pathfinding_algorithm.py:162-166 | The picked cell `row * size + col` lies in the grid, and the iteration writes a wall there or leaves the grid as it is. |
| Maze.Maze | src/ALG_7_Graphen_Pathfinding_Visualizer/pathfinding_algorithm.py:161-166 | The grid after the picks in order keeps its size, and a wall stays a wall. |
| Maze.MazeSnoc | src/ALG_7_Graphen_Pathfinding_Visualizer/pathfinding_algorithm.py:161 | Taking one more pick applies one more iteration. |
| Maze.MazeWithoutEndpoints | src/ALG_7_Graphen_Pathfinding_Visualizer/pathfinding_algorithm.py:165 | With neither endpoint placed, every picked cell becomes a wall. |
| Search.PotentialUpdate | src/ALG_7_Graphen_Pathfinding_Visualizer/pathfinding_algorithm.py:73 | Changing one cost changes the summed costs by exactly the difference between the new and the old weight. |
| Search.Init | src/ALG_7_Graphen_Pathfinding_Visualizer/pathfinding_algorithm.py:44-51 | Before the loop only the start has a finite cost, 0; `came_from` is empty; the frontier set and the queued vertices are both exactly the start (also lines 102-113). |
| Search.InitQueue | src/ALG_7_Graphen_Pathfinding_Visualizer/pathfinding_algorithm.py:44-46 | The queue before the loop holds exactly the entry `(0, 0, start)`, and `count` is 0 (also lines 102-104). |
| Search.Relax | src/ALG_7_Graphen_Pathfinding_Visualizer/pathfinding_algorithm.py:69-78 | A relaxation keeps the map sizes, leaves the neighbour's cost as it was or lowers it, and reports a queued neighbour only when it was outside the frontier set and is now inside it (also lines 131-142). |
| Search.Lower | src/ALG_7_Graphen_Pathfinding_Visualizer/pathfinding_algorithm.py:71-78 | The improving branch gives the neighbour cost `cost[current] + 1` and predecessor `current` and puts it in the frontier set (also lines 133-142). |
| Search.Pop | src/ALG_7_Graphen_Pathfinding_Visualizer/pathfinding_algorithm.py:58-59 | The popped vertex leaves the frontier set, the queue shrinks by one, and costs and predecessors are unchanged. |
| Search.RelaxAll | src/ALG_7_Graphen_Pathfinding_Visualizer/pathfinding_algorithm.py:68-82 | The whole neighbour loop keeps the map sizes, never undiscovers a vertex or raises a cost, and queues only vertices of the grid (also lines 130-146). |
| Search.RelaxAllSnoc | src/ALG_7_Graphen_Pathfinding_Visualizer/pathfinding_algorithm.py:68-82 | Relaxing one more neighbour extends the loop by exactly one `Relax`. |
| Search.RelaxAllStep | src/ALG_7_Graphen_Pathfinding_Visualizer/pathfinding_algorithm.py:68-82 | The same for the bookkeeping before and after one pass. |
| Search.RelaxAllDone | src/ALG_7_Graphen_Pathfinding_Visualizer/pathfinding_algorithm.py:68 | After the last pass the loop has relaxed every neighbour. |
| Search.RelaxLowers | src/ALG_7_Graphen_Pathfinding_Visualizer/pathfinding_algorithm.py:69-78 | One relaxation never undiscovers a vertex or raises a cost and queues nothing but the neighbour. |
| SearchLemmas.BelowSize | src/ALG_7_Graphen_Pathfinding_Visualizer/pathfinding_algorithm.py:71 | Two distinct vertices outside the set of vertices cheaper than `k` leave room for at most `n - 2` cheaper vertices. |
| SearchLemmas.RelaxBounded | src/ALG_7_Graphen_Pathfinding_Visualizer/pathfinding_algorithm.py:69-73 | If a cost can be lowered, the current cost is at most `n - 2`. Lowering keeps every finite cost witnessed by that many cheaper vertices. |
| SearchLemmas.InitSteady | src/ALG_7_Graphen_Pathfinding_Visualizer/pathfinding_algorithm.py:44-51 | The state before the loop satisfies the loop invariant, with only the start discovered. The A* start f-score is its Manhattan distance to the destination (lines 102-113). |
| SearchLemmas.PopStep | src/ALG_7_Graphen_Pathfinding_Visualizer/pathfinding_algorithm.py:58-59 | The popped vertex is discovered and was in the frontier set; it is removed from that set. It precedes every remaining entry. Nothing but the queue and the set changes. The core invariant is kept, and every other discovered vertex outside the frontier stays closed. The measure strictly drops (also lines 120-121). |
| SearchLemmas.PopCore | src/ALG_7_Graphen_Pathfinding_Visualizer/pathfinding_algorithm.py:58-59 | Popping keeps the core invariant. |
| SearchLemmas.PopClosed | src/ALG_7_Graphen_Pathfinding_Visualizer/pathfinding_algorithm.py:59 | Removing `current` from the frontier keeps every other vertex closed. |
| SearchLemmas.PopMirrors | src/ALG_7_Graphen_Pathfinding_Visualizer/pathfinding_algorithm.py:58-59 | After the pop, the frontier set still equals the queued vertices. |
| SearchLemmas.RelaxEffect | src/ALG_7_Graphen_Pathfinding_Visualizer/pathfinding_algorithm.py:69-82 | Relaxation writes the neighbour's cost and predecessor only when `cost[current] + 1` is strictly smaller; otherwise nothing changes, so a cost never rises. No other cost changes. The neighbour is queued exactly when it improved and was not in the frontier set, with the next ticket and key `cost + heuristic`. Afterwards the neighbour is discovered (also lines 131-146). |
| SearchLemmas.RelaxStep | src/ALG_7_Graphen_Pathfinding_Visualizer/pathfinding_algorithm.py:68-82 | One relaxation keeps the core invariant, closure apart from `current`, and the pending destination. It does not raise the measure (also lines 130-146). |
| SearchLemmas.ExpandStep | src/ALG_7_Graphen_Pathfinding_Visualizer/pathfinding_algorithm.py:68-82 | One pass of the neighbour loop keeps its invariant: one more neighbour of `current` is discovered, and the measure does not rise. |
| SearchLemmas.ExpandDone | src/ALG_7_Graphen_Pathfinding_Visualizer/pathfinding_algorithm.py:68-89 | After all neighbours of `current` are relaxed, `current` is closed and the outer invariant holds again. |
| SearchLemmas.RelaxCore | src/ALG_7_Graphen_Pathfinding_Visualizer/pathfinding_algorithm.py:69-78 | Relaxation keeps the core invariant: predecessor tree, frontier mirror, A* scores and cost bound (also lines 131-142). |
| SearchLemmas.RelaxCoreImproved | src/ALG_7_Graphen_Pathfinding_Visualizer/pathfinding_algorithm.py:71-78 | The improving branch keeps the core invariant. |
| SearchLemmas.LowerTree | src/ALG_7_Graphen_Pathfinding_Visualizer/pathfinding_algorithm.py:72-73 | Giving the neighbour cost `cost[current] + 1` and predecessor `current` keeps the start's cost 0 with no predecessor. It keeps `came_from` a tree of strictly cheaper neighbours and keeps costs bounded (also lines 134-135). |
| SearchLemmas.LowerQueue | src/ALG_7_Graphen_Pathfinding_Visualizer/pathfinding_algorithm.py:72-78 | The improving branch keeps the frontier mirror and the A* f-scores consistent (also lines 134-142). |
| SearchLemmas.RelaxTree | src/ALG_7_Graphen_Pathfinding_Visualizer/pathfinding_algorithm.py:72-73 | The lowered neighbour is neither the start nor `current`. The updated maps keep the tree rooted at the start. |
| SearchLemmas.RelaxMirrors | src/ALG_7_Graphen_Pathfinding_Visualizer/pathfinding_algorithm.py:75-78 | A vertex is queued only when it is not in the frontier set, so the set still equals the queued vertices, each once, with increasing tickets (also lines 139-142). |
| SearchLemmas.RelaxScored | src/ALG_7_Graphen_Pathfinding_Visualizer/pathfinding_algorithm.py:135-137 | Writing `g_score` and `f_score` together keeps `f = g + Manhattan` for every vertex. |
| SearchLemmas.RelaxClosed | src/ALG_7_Graphen_Pathfinding_Visualizer/pathfinding_algorithm.py:73-78 | Discovering a neighbour, and putting it in the frontier, keeps every closed vertex closed. |
| SearchLemmas.RelaxMeasure | src/ALG_7_Graphen_Pathfinding_Visualizer/pathfinding_algorithm.py:73-77 | A strict cost decrease pays for the one possible insertion, so the measure does not rise. |
| SearchLemmas.RelaxFrontier | src/ALG_7_Graphen_Pathfinding_Visualizer/pathfinding_algorithm.py:69-78 | Relaxation keeps closure and the pending destination and does not raise the measure. |
| SearchLemmas.ExpansionDone | src/ALG_7_Graphen_Pathfinding_Visualizer/pathfinding_algorithm.py:68 | Once every neighbour of `current` is discovered, closure holds with no exception. |
| SearchLemmas.Reaches | src/ALG_7_Graphen_Pathfinding_Visualizer/pathfinding_algorithm.py:62-65 | Every discovered vertex is reachable from the start, so finding the destination means it is reachable. |
| SearchLemmas.CoreFormed | src/ALG_7_Graphen_Pathfinding_Visualizer/pathfinding_algorithm.py:58-78 | Under the core invariant the bookkeeping has the shape `Run` needs: one cost per vertex and only grid vertices queued. |
| SearchLemmas.Exhausted | src/ALG_7_Graphen_Pathfinding_Visualizer/pathfinding_algorithm.py:53 | When the queue runs empty under the invariant, the destination is not reachable from the start, so `return False` is right (also lines 91, 115, 155). |
| SearchLemmas.ChainToStart | src/ALG_7_Graphen_Pathfinding_Visualizer/pathfinding_algorithm.py:191-193 | The predecessor chain of the discovered destination has four properties. It is empty exactly when the destination is the start. It ends at the start. It never contains the destination, so the destination is never marked as path. Reversed and followed by the destination, it is a path from the start. |
| SearchLemmas.WalkBack | src/ALG_7_Graphen_Pathfinding_Visualizer/pathfinding_algorithm.py:191-193 | A walk along predecessor edges, read backwards, is a path. |
| Execution.Run | src/ALG_7_Graphen_Pathfinding_Visualizer/pathfinding_algorithm.py:53-91 | The outer loop as a function: it keeps the bookkeeping well formed and reports success only after popping at least once from a non-empty queue. |
| Execution.Outcome | src/ALG_7_Graphen_Pathfinding_Visualizer/pathfinding_algorithm.py:44-91 | The whole search from `Init` with `Measure(Init)` steps, whose final bookkeeping is well formed. |
| Execution.RunFound | src/ALG_7_Graphen_Pathfinding_Visualizer/pathfinding_algorithm.py:61-65 | A pass that pops the destination ends the loop with `True` and the popped bookkeeping. |
| Execution.RunNext | src/ALG_7_Graphen_Pathfinding_Visualizer/pathfinding_algorithm.py:58-89 | A pass that pops another vertex continues from exactly `RelaxAll` of the popped bookkeeping, with one step fewer. |
| Execution.RelaxAllFormed | src/ALG_7_Graphen_Pathfinding_Visualizer/pathfinding_algorithm.py:68-82 | The neighbour loop keeps the bookkeeping well formed. |
| Execution.PopFormed | src/ALG_7_Graphen_Pathfinding_Visualizer/pathfinding_algorithm.py:58-59 | Popping keeps the bookkeeping well formed and yields a grid vertex. |
| Pathfinding.Pathfinder.constructor | src/ALG_7_Graphen_Pathfinding_Visualizer/pathfinding_algorithm.py:29-33 | Stores the grid, the start and the destination. Either endpoint may be `None`, as the user interface passes before it is placed (gui.py lines 86 and 128). |
| Pathfinding.Pathfinder.ReconstructPath | src/ALG_7_Graphen_Pathfinding_Visualizer/pathfinding_algorithm.py:183-194 | Afterwards every cell of the predecessor chain walked from `current` is a path cell, and every other cell, `current` included, is unchanged. |
| Pathfinding.Pathfinder.Traverse | src/ALG_7_Graphen_Pathfinding_Visualizer/pathfinding_algorithm.py:44-91 | The shared search loop. Its result and final bookkeeping are exactly `Execution.Outcome` of the inputs. It returns `True` exactly when the destination is reachable. On `True`, the chain of the destination is a path from the start, the chain cells are path cells, the start is the start, and every other cell has the marking of the final bookkeeping. On `False`, the frontier is empty, every cell reachable from the start other than the two endpoints is visited, and every other cell is unchanged. The final bookkeeping satisfies the core invariant. |
| Pathfinding.Pathfinder.Iterate | src/ALG_7_Graphen_Pathfinding_Visualizer/pathfinding_algorithm.py:53-89 | One pass of the loop pops the least entry. On the destination it stops with the core invariant and the destination discovered. Otherwise the bookkeeping becomes exactly `RelaxAll` of the popped state, the loop invariant holds and the measure strictly drops. The grid keeps its search marking. |
| Pathfinding.Pathfinder.ExhaustedMarks | src/ALG_7_Graphen_Pathfinding_Visualizer/pathfinding_algorithm.py:89-91 | With an empty frontier and discovery equal to reachability, the marking of a cell is "visited" exactly when it is reachable and is neither endpoint. |
| Pathfinding.Pathfinder.RelaxNeighbors | src/ALG_7_Graphen_Pathfinding_Visualizer/pathfinding_algorithm.py:68-82 | The neighbour for-loop yields exactly `RelaxAll` over the neighbour list, keeps its invariant, does not raise the measure, and leaves every cell but `current` with its search marking (also lines 130-146). |
| Pathfinding.Pathfinder.Marked | src/ALG_7_Graphen_Pathfinding_Visualizer/pathfinding_algorithm.py:80-89 | The marking of a cell while the search runs: the endpoints keep their state, and a cell that changed is discovered and is visiting exactly when it is in the frontier set. |
| Pathfinding.Pathfinder.FinishPath | src/ALG_7_Graphen_Pathfinding_Visualizer/pathfinding_algorithm.py:62-65 | When the destination is popped, it is reachable. Its chain is a path from the start. The chain is marked as path and the start is re-marked as the start, while every other cell keeps its marking (also lines 124-127). |
| Pathfinding.Pathfinder.Expand | src/ALG_7_Graphen_Pathfinding_Visualizer/pathfinding_algorithm.py:68-89 | Expanding a popped vertex other than the destination yields exactly `RelaxAll` over its neighbour list in order, restores the loop invariant and does not raise the measure. It leaves every cell with its search marking (also lines 130-153). |
| Pathfinding.Pathfinder.RelaxNeighbor | src/ALG_7_Graphen_Pathfinding_Visualizer/pathfinding_algorithm.py:69-82 | One pass of the neighbour loop performs exactly the relaxation step and keeps the loop invariant. It marks the neighbour as visiting when it was newly queued and is not the destination, and changes no other cell (also lines 131-146). |
| Pathfinding.Pathfinder.MarkExpanded | src/ALG_7_Graphen_Pathfinding_Visualizer/pathfinding_algorithm.py:87-89 | After its neighbours, the expanded vertex is marked as visited unless it is the start. The loop invariant holds again (also lines 151-153). |
| Pathfinding.Pathfinder.PopMarks | src/ALG_7_Graphen_Pathfinding_Visualizer/pathfinding_algorithm.py:58-59 | Removing the popped vertex from the frontier changes the marking of no other vertex, and of none at all when it is the start or the destination. |
| Pathfinding.Pathfinder.MarkStep | src/ALG_7_Graphen_Pathfinding_Visualizer/pathfinding_algorithm.py:75-82 | A relaxation changes the marking of the neighbour only, to visiting, exactly when it was queued and is not the destination (also lines 139-146). |
| Pathfinding.Pathfinder.Dijkstra | src/ALG_7_Graphen_Pathfinding_Visualizer/pathfinding_algorithm.py:35-91 | Its result and final bookkeeping are `Outcome` with the cost as the key. `True` exactly when the destination is reachable, with the path and the marking as in `Traverse`, the explicit failure marking included. Dijkstra keeps no f-scores. |
| Pathfinding.Pathfinder.AStarSearch | src/ALG_7_Graphen_Pathfinding_Visualizer/pathfinding_algorithm.py:93-155 | Its result and final bookkeeping are `Outcome` with cost plus Manhattan distance as the key. `True` exactly when the destination is reachable, with the same marking. The final f-scores are `g_score` plus the Manhattan distance to the destination. |
| Pathfinding.Pathfinder.GenerateMaze | src/ALG_7_Graphen_Pathfinding_Visualizer/pathfinding_algorithm.py:157-166 | Exactly the first `n + 1` picks are applied: each one becomes a wall unless it is a placed start or destination; a missing endpoint spares nothing. Nothing else changes. |

## Left out

- Event handling with `pygame.event.get()` and `pygame.quit()` (lines 54-56, 116-118) is input I/O and is not modelled. A quit event is not harmless in the source: after `pygame.quit()` the next pygame call of the search (`gui.draw` at lines 85, 149 or 194, or `pygame.event.get()` at lines 54 and 116) raises, so the search ends by an exception. The model always runs the search to its end, as if no quit event arrived.
- The `gui.draw` calls (lines 85, 149, 194) only render the grid and are not modelled.
- The wall count `round(len * len * 0.3)` (line 159) is floating-point arithmetic. `GenerateMaze` takes `n` as a parameter instead.
- The `randrange` calls (lines 162-163) are replaced by the input sequence `picks` of `(row, col)` pairs. A pair must lie inside the grid, as `randrange(len(grid))` guarantees.
- Neighbour computation and the `make_*` colouring belong to `vertex.py`, which is not part of this model.
  - Neighbours are an input relation whose entries lie in the grid.
  - A `make_*` call is an assignment of the matching `State` to the cell.
- Pathfinding.Pathfinder.Dijkstra: minimality of the returned route is not proved, for scope. With unit weights no queued entry goes stale, so no queue-order argument stands in the way; proving it needs a further invariant (queued keys equal the current costs and lie within one of the last popped key, and expanded vertices carry their true distance) that this model does not carry. It proves that the route is a path from the start to the destination.
- Pathfinding.Pathfinder.AStarSearch: optimality is not claimed. A vertex already in `open_set` is not re-queued with its lowered f-score (lines 139-142), so a stale key can stay in the queue and the pop order need not follow the current f-scores. It proves that the route is a path, not that it is a shortest one.
- Pathfinding.Pathfinder.Traverse: as the shared loop, it carries neither optimality claim.
- The searches require both endpoints to be placed, because the user interface starts a search only when `start and destination` holds (gui.py lines 145 and 155). Outside that guard the source behaves as follows. With no start, both searches fail on `None`: `a_star_search` at line 109, `dijkstra` at line 68 (`None.neighbors`), or at line 64 when the destination is missing as well. With a start but no destination, `dijkstra` only compares vertices with the destination (lines 62 and 81), so it runs until the queue is empty, marks every reachable vertex other than the start as visited and returns `False`; `a_star_search` fails at line 110 on `None.get_position()`. The model does not cover these unguarded calls.
- `src/dijkstra/main.py` is a driver for other algorithms. `src/Pathfinding Visualizer/gui.py` is the user interface. Neither is part of this model.
- The body of the search loop is factored into the methods `Iterate`, `FinishPath`, `Expand`, `RelaxNeighbors`, `RelaxNeighbor` and `MarkExpanded`. The order of the source's statements is kept.
- Under Dijkstra the bookkeeping's f-score map is empty, because `dijkstra` keeps none.
- The A* frontier set `open_set` and Dijkstra's `visited` set are the same field.
- The model sees the bookkeeping only through ghost results. The dictionaries are local variables in the source and are not returned.

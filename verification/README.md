# Verified model of the stream operations platform

Dafny models of the parts of the platform whose correctness is not visible from one function at a
time, with proofs of what they promise over every input, every run or every reachable state.

| component | modules | source |
|---|---|---|
| Bastet planner | `BastetBoard`, `BastetFeatures`, `BastetSearch`, `BastetBudget`, `BastetPlan` | `brains/bastet/brain.py` |
| Snake and maze players | `Snake`, `SnakePlan`, `Pacman` | `brains/nsnake/brain.py`, `brains/pacman4console/brain.py` |
| Order of strings | `Strings` | the sort keys of the rotation and the dispatcher |
| Breadth-first search, shared by the three players | `Search` | the search loops of the three brains |
| Caption injector | `Captions`, `CaptionsFilter`, `CaptionsRequests`, `CaptionsAir` | `native/ffmpeg/vf_docichcc.c` |
| Handoff rotation | `HandoffText`, `HandoffSections`, `HandoffStore`, `HandoffRotate`, `HandoffRuns`, `HandoffOverlooked` | `ops/local/handoff_rotate.py` |
| Deploy transaction | `DeployPlan`, `DeployFiles`, `DeployRecord`, `DeployGateway` | `ops/vm_actions/gateway.py`, `ops/vm_actions/projection_io.py` |
| Policy installer | `PolicyInstall` | `ops/hotfixes/apply_founding_policy_20260907.py` |
| Repair dispatcher | `RepairJobs` | `ops/self_repair/worker.py` |

Check everything with `dafny verify dfyconfig.toml`.

Conventions. Loops and field updates of the source are methods and classes; each is proved against a
predicate or function, about which the lemmas speak. SHA-256 digests are compared as the bytes they
stand for. In the deploy, installer and dispatcher models every system call is a step at which the
call may fail or the process may die; in the first two other programs may also act between steps. There
a `World` says what is excluded for a stretch: `calm` means nobody else acts, `sound` means no step
fails or dies. A clause without either holds in every world.

Where code and prose of the source differ, or a promise needs a condition:

- `brains/bastet/brain.py:61-62` says the widest plan is 9 steps and 3 turns, and that the best placement
  inside the key budget wins. A landing can need 13 keys (`BastetPlan.WiderThanNoted`). The code at 553 would
  return nothing for a best path of more than 16, but no shortest path is that long on any board
  (`BastetPlan.BudgetNeverBinds`), so the limit rejects nothing and the second statement holds.
- A rolled back deploy restores a file that holds the new content only if this deploy put it there.
  `DeployFiles.NewContentAloneIsDrift` is the counterexample to the unconditional promise and
  `Restorable` the exact condition in `DeployGateway.Gateway.Abort`.
- The effective baseline of the state file only moves forward (`DeployRecord.BaselineOnlyMovesForward`), the
  recorded commit does not. `DeployRecord.RecordedCommitMayMoveBack` has both failing operations, a manual
  rebaseline and a deploy after one, and `DeployRecord.OperationMovesForwardExactly` says they are the only
  ones; `DeployRecord.EveryOutcomeForwardExactly` is the condition known before a deploy. Between the final
  record and a failing last check the baseline is ahead for a moment and is then restored; the claim is
  about operation boundaries, including kills.
- A process killed inside the exception handler, after the final record was written, can leave half restored
  files without an intent: `DeployGateway.Gateway.DieRollingBack`. Killed anywhere else, while nobody else acts,
  the site is old, has an intent or is as requested (`DeployGateway.Gateway.Deploy`).
- An intent that was written although its write was reported as failed stays on disk when the deploy rolls
  back (`DeployGateway.Gateway.Abort`), and every later deploy refuses (`DeployRecord.IntentStays`).
- `ops/local/handoff_rotate.py:18-19` promises that a concurrent append is never clobbered. One made
  between the second comparison (327) and the replacement (331) is: `HandoffOverlooked.LosingRotation` is
  the input and `HandoffRuns.RunLosesNothing` the exact condition. One made between the replacement and the
  check (333) is kept, but makes the run fail (`HandoffRuns.CheckFailsExactly`).
- `ops/self_repair/worker.py:134` tests whether a saved URL is non-empty. A publisher that prints nothing is
  asked again (`RepairJobs.EmptyUrlIsAskedAgain`), so "published once" is about non-empty URLs.
- Sections appended to an archive are found again exactly when the archive is newline-terminated and
  outside every fence (`HandoffSections.AppendedSectionsAreFound`); the run theorem therefore asks that
  agents prepend complete sections.

## Model

| member | source | states |
|---|---|---|
| BastetBoard.ShapesAreTetrominoes | brains/bastet/brain.py:70-113 | Every orientation of every piece is four different cells inside a 4 by 4 box. |
| BastetBoard.Lock | brains/bastet/brain.py:359-361 | The locking loop: the board is the old one with the four cells set to the piece. |
| BastetBoard.Clear | brains/bastet/brain.py:362 | The filtering loop: exactly the rows that are not full, in order. |
| BastetBoard.LockAndClear | brains/bastet/brain.py:356-364 | Lock and clear together: refused exactly for a placement above the well, else the settled board and the number of cleared lines. |
| BastetBoard.SurvivingInOrder | brains/bastet/brain.py:362-363 | The surviving rows are exactly the rows that are not full, in their old order. |
| BastetBoard.AtMostFourLines | brains/bastet/brain.py:356-364 | If no row was full before, locking one piece fills at most four. |
| BastetBoard.LineClearConserves | brains/bastet/brain.py:356-364 | For a fitting placement inside the well: 20 rows of 10, no full row left, survivors in order below fresh empty rows, cells equal old plus 4 minus 10 per cleared line, at most 4 lines. |
| BastetFeatures.WellFeatures | brains/bastet/brain.py:367-413 | The feature loops return exactly the specified heights, holes, row and column transitions and well sum of any board. |
| BastetFeatures.ScanColumns | brains/bastet/brain.py:369-381 | The height and hole loop agrees with the recursive definitions for every column. |
| BastetFeatures.ScanRowTransitions | brains/bastet/brain.py:383-390 | The row transition loop counts changes between walls, cells and walls. |
| BastetFeatures.ScanColumnTransitions | brains/bastet/brain.py:392-399 | The column transition loop counts changes from open top to floor. |
| BastetFeatures.ScanWells | brains/bastet/brain.py:401-411 | The well loop agrees with the recursive definition. |
| BastetFeatures.ColumnBalance | brains/bastet/brain.py:369-381 | In a column, height equals occupied cells plus holes. |
| BastetFeatures.RowParity | brains/bastet/brain.py:383-390 | Every row has an even number of transitions, both walls counting as occupied. |
| BastetFeatures.ColumnParity | brains/bastet/brain.py:392-399 | Every column has an odd number of transitions, from open top to solid floor. |
| BastetFeatures.WellExchange | brains/bastet/brain.py:401-411 | Summing the empty run below each side-walled empty cell equals summing, row by row, the walled cells that open onto it. |
| BastetFeatures.FeatureMeaning | brains/bastet/brain.py:367-413 | On every board heights sum to occupied cells plus holes, row transitions are even per row, column transitions odd per column and at least ten in all, and the well sum counts each cell once per side-walled cell that opens onto it. |
| BastetSearch.Drop | brains/bastet/brain.py:457-460 | The hard drop stops at the one row from which the piece cannot go further down. |
| BastetSearch.RestIsUnique | brains/bastet/brain.py:457-460 | Only one row below a fitting state is its resting row. |
| BastetSearch.PathTo | brains/bastet/brain.py:449-455 | Following the parent table back and reversing yields the recorded key path. |
| BastetSearch.Expand | brains/bastet/brain.py:466-478 | One expansion keeps the breadth-first frontier: every key, in the order left, right, space, up, that leads to a new fitting state adds it once, one key longer. |
| BastetSearch.Record | brains/bastet/brain.py:457-464 | The landing table keeps, per landing, the first path that reaches it, and its entries stay in the order of their paths. |
| BastetSearch.Placements | brains/bastet/brain.py:428-479 | The search is exact: one entry per landing inside the well, each path lands there, every legal key sequence that lands reaches a listed entry whose path is no later than itself, shorter ones and then earlier keys first; the entries are in this order; it terminates. |
| BastetSearch.PlacementsUnique | brains/bastet/brain.py:428-479 | Exactness determines the list: two exact lists are equal, order and paths included. |
| BastetSearch.PathStands | brains/bastet/brain.py:466-478 | Along a returned path the piece fits after every single key. |
| BastetSearch.SearchPathIsGamePath | brains/bastet/brain.py:466-478 | Every search path is a legal key sequence of the game with the same effect. |
| BastetSearch.GamePathIsCovered | brains/bastet/brain.py:471-476 | Skipping turns that change no cell loses nothing: whatever the game reaches, the search reaches with at most as many keys, with the same cells. |
| BastetSearch.GameLandsInSearch | brains/bastet/brain.py:446-478 | Whatever a key sequence of the game and a drop land on, the search lands on the same cells with at most as many keys. |
| BastetPlan.FindActive | brains/bastet/brain.py:322-342 | The first match by row and then by shape order, none exactly when nothing matches at any spawn row. |
| BastetPlan.MatchesMeans | brains/bastet/brain.py:322-342 | A piece is recognised at a row exactly if at least two cells of its spawn shape are at row 0 or below, and all of these are inside the well in its own colour. |
| BastetPlan.ErasedPieceFits | brains/bastet/brain.py:322-342 | Once the visible cells of the recognised piece are erased, the search starts from a state that fits. |
| BastetPlan.SpawnStands | brains/bastet/brain.py:488-494 | The lookahead starts above the well, where every piece fits on every board. |
| BastetPlan.Evaluate | brains/bastet/brain.py:495-502 | A reachable landing can always be locked, and its value is the one-ply value of the settled board. |
| BastetPlan.ValueOfEachFeature | brains/bastet/brain.py:416-425 | One hole more adds the hole weight, and likewise wells, both kinds of transitions, cleared lines and landing height, each with its own weight; a board without any is worth zero. |
| BastetPlan.LandingHeightMeans | brains/bastet/brain.py:482-486 | The landing height is the mean height above the floor of the middles of the highest and the lowest row that the piece covers. |
| BastetPlan.SinglePly | brains/bastet/brain.py:488-506 | None exactly when there is no landing; else the greatest one-ply value over all landings from above the well, with the first of all paths to landings of that value. |
| BastetPlan.FollowupValue | brains/bastet/brain.py:509-514 | The best reply of the next piece, or the fixed penalty when it has none. |
| BastetPlan.ScoreMeans | brains/bastet/brain.py:537-547 | Without a preview or lookahead weight a landing is worth its own value; else the weighted best reply is added, or the weighted penalty when the next piece cannot land; each key adds the path weight. |
| BastetPlan.ScorePlacement | brains/bastet/brain.py:537-547 | Value plus weighted lookahead plus path term of one placement. |
| BastetPlan.BestPlacement | brains/bastet/brain.py:532-551 | The path kept by the loop is the optimal plan: a shortest way to a landing of greatest score, ahead of all that tie with it, shorter ones and then earlier keys first; none exactly when nothing can be reached. |
| BastetPlan.OptimalPlanUnique | brains/bastet/brain.py:548-555 | There is one optimal plan. |
| BastetPlan.OptimalOverAllKeys | brains/bastet/brain.py:547-551 | With a path weight of at most zero no key sequence of the search, however long, scores more than the plan. |
| BastetPlan.OptimalOverGame | brains/bastet/brain.py:547-551 | The same over the game: no key sequence, idle turns included, followed by a drop scores more than the plan, which is itself one. |
| BastetBudget.StepBack | brains/bastet/brain.py:70-113 | Going one column aside, turning twice and stepping back is shortest only as the first or the last four keys of a path, and only for J or L of the pieces other than I. |
| BastetBudget.CourseOf | brains/bastet/brain.py:61-63 | A shortest path of any piece but I keeps one direction, apart from one such step back at each end, and makes at most three turns in two neighbouring columns. |
| BastetBudget.TopFirst | brains/bastet/brain.py:61-63 | On a shortest path the I piece is in orientation 0 only during its first, at most three, steps sideways. |
| BastetBudget.LegOf | brains/bastet/brain.py:61-63 | A shortest path of the I piece lies, stands, lies in orientation 2 and stands again, each for at most one run. |
| BastetBudget.ShortestFitsBudget | brains/bastet/brain.py:61-63 | From the spawn state no shortest key path of any piece on any board has more than 16 keys. |
| BastetPlan.BudgetNeverBinds | brains/bastet/brain.py:61-63 | A shortest way to a landing never needs more keys than the limit, on every board and from every spawn row. |
| BastetPlan.WiderThanNoted | brains/bastet/brain.py:61-62 | A concrete board on which a landing needs ten steps and three turns: one key more than the widest plan the comment states. |
| BastetPlan.PlanKeys | brains/bastet/brain.py:517-555 | There is a plan exactly when there is an active piece that can land; it is the optimal one for that piece on the board without it, and has at most 16 keys. |
| Snake.Bfs | brains/nsnake/brain.py:124-145 | The first of the shortest unblocked routes to a nearest goal, with up before down, left and right, none exactly when no goal can be reached. |
| Snake.NearestRouteUnique | brains/nsnake/brain.py:124-145 | There is one such route. |
| Snake.NextMeans | brains/nsnake/brain.py:38-43 | Up, down, left and right change one coordinate by one, rows growing downwards. |
| Snake.PathTo | brains/nsnake/brain.py:131-136 | The cells read back from the predecessor table are the cells of the recorded route. |
| Snake.FloodFree | brains/nsnake/brain.py:148-164 | The count is the number of cells reachable from the start. |
| Snake.RegionExact | brains/nsnake/brain.py:148-164 | The counted region is exactly what legal moves can reach. |
| SnakePlan.BlockedCells | brains/nsnake/brain.py:110-121 | Exactly the walls and the body, without the tail when it may be stepped on. |
| SnakePlan.OpenExactly | brains/nsnake/brain.py:110-121 | A neighbour is open exactly if it is on the screen cut, no wall, and not the body, the passable tail excepted. |
| SnakePlan.FirstStep | brains/nsnake/brain.py:184-193 | The first direction of the first shortest route to food, none exactly when there is no step to take. |
| SnakePlan.Insert | brains/nsnake/brain.py:204 | Inserting keeps the list in descending order and its elements. |
| SnakePlan.ScoreOthers | brains/nsnake/brain.py:194-206 | Exactly the other open neighbours, each with its free space, in descending order of space and name. |
| SnakePlan.Pick | brains/nsnake/brain.py:208-215 | The first ordered direction with enough room, else the first one; none exactly when every neighbour is closed. |
| SnakePlan.Decide | brains/nsnake/brain.py:167-215 | The preferred direction, and none exactly when every neighbour is closed: never a wall or blocked cell, a direction with at least min_free room whenever one has it, the food step when it has room. |
| SnakePlan.DecisionUnique | brains/nsnake/brain.py:167-215 | The decision is determined by arena, food and min_free: ties are broken in one way. |
| SnakePlan.PreferredIsSafe | brains/nsnake/brain.py:208-215 | Whatever the loop prefers is open and has enough room if any candidate has. |
| Pacman.TunnelsAreTwoWay | brains/pacman4console/brain.py:63-67 | On the torus opposite directions undo each other, through the tunnels too. |
| Pacman.NextMeans | brains/pacman4console/brain.py:63-67 | Inside the maze a direction is one cell; at an edge it leads to the opposite one. |
| Pacman.Walkable | brains/pacman4console/brain.py:96-100 | Everything visible is walkable, whatever map was loaded. |
| Pacman.Danger | brains/pacman4console/brain.py:101-107 | The zone is exactly the cells within `radius` walkable steps of a ghost. |
| Pacman.Radius | brains/pacman4console/brain.py:102 | The configured radius truncated, 0 below zero and 4 from four on. |
| Pacman.NearSucc | brains/pacman4console/brain.py:104-107 | A cell is within n + 1 steps exactly when it is within n or a walkable neighbour of one that is. |
| Pacman.Route | brains/pacman4console/brain.py:109-120 | The first key of the first shortest walkable route to food that avoids the blocked cells, with up before left, down and right; none exactly when there is no such route. |
| Pacman.Corridor | brains/pacman4console/brain.py:127-131 | The first open neighbour in the order up, left, down, right, none exactly when all are closed. |
| Pacman.Decide | brains/pacman4console/brain.py:101-131 | Safe route, else route avoiding the ghosts themselves, else first safe corridor, else first corridor, else Right: each choice taken exactly when the earlier ones do not exist. |
| Pacman.DecisionUnique | brains/pacman4console/brain.py:101-131 | The key sent is determined by what is seen and the weight. |
| Search.Shortest | brains/nsnake/brain.py:124-145 | A path found by a breadth-first frontier is ahead of every other legal path to the same state: shorter, or equally long with the earlier key where they differ. |
| Search.Exhausted | brains/nsnake/brain.py:129-145 | When the queue is empty, every reachable state was found, each by its first path. |
| Search.NearestGoal | brains/nsnake/brain.py:129-136 | When the first goal leaves the queue, its path is ahead of every path to a goal. |
| Search.AheadUnique | brains/nsnake/brain.py:129-145 | Of two paths each ahead of the other there is only one, so a path ahead of all is determined. |
| Captions.ValidateText | native/ffmpeg/vf_docichcc.c:280-296 | Accepts exactly one or two lines of 1 to 32 printable ASCII characters. |
| Captions.FrameKeeps | native/ffmpeg/vf_docichcc.c:748-772 | Every frame, whatever clients, sockets and injection do, keeps the queue, page and pending invariants. |
| Captions.RunKeeps | native/ffmpeg/vf_docichcc.c:748-772 | In every run from start-up: emitted plus queued triplets are the accepted encodings in order, emitted plus queued equals enqueued, an end-of-caption pair directly follows the prepare of the same page by the same execution, a prepared or visible page has an execution id, and a pending request has a client and waits for everything queued. |
| Captions.RunExtends | native/ffmpeg/vf_docichcc.c:748-772 | What went on air, was accepted or was sent is never taken back. |
| Captions.CompletionIsSound | native/ffmpeg/vf_docichcc.c:545-559 | A completion message names the last accepted request and is sent only when everything queued is on air. |
| CaptionsAir.CompletionsAnswerRequests | native/ffmpeg/vf_docichcc.c:545-559 | Over every run the completions sent answer distinct accepted requests in the order of acceptance, and for each of them everything up to it is on air. |
| CaptionsAir.PairsFollowPrepares | native/ffmpeg/vf_docichcc.c:387-397 | Over every run and whatever the encoder emits: every end-of-caption triplet emitted or queued is in a pair that directly follows the triplets of the prepare of the same page by the same execution, or inside the triplets the encoder made for a prepare, clear or reset. |
| CaptionsAir.UnpairedIsErase | native/ffmpeg/vf_docichcc.c:355-362 | With an encoder whose captions hold no end-of-caption, an unpaired one lies in the erase sequence of a clear or reset. |
| Captions.WaitingFrame | native/ffmpeg/vf_docichcc.c:748-772 | One successful frame drains exactly the frame budget, or completes the request and lets the client go. |
| Captions.AcceptingFrame | native/ffmpeg/vf_docichcc.c:748-772 | The frame that accepts a request already injects for it. |
| Captions.CompletionIsBounded | native/ffmpeg/vf_docichcc.c:561-572 | In any run of frames, completion comes at exactly the ceil(backlog / budget)-th successful frame, the accepting frame included, and until then each success drains the budget. |
| Captions.FailingFrame | native/ffmpeg/vf_docichcc.c:748-772 | A frame whose injection fails leaves a waiting request and its queue as they are. |
| Captions.Budget | native/ffmpeg/vf_docichcc.c:694-727 | Captions are disabled exactly for a frame rate of at most zero. |
| Captions.BudgetValues | native/ffmpeg/vf_docichcc.c:716-725 | The budgets: the most triplets per frame, at most 31, that keep to 60 per second, or one; and 600 constructs per second rounded up, between 1 and 31 per picture. |
| Captions.BudgetFits | native/ffmpeg/vf_docichcc.c:711-727 | At least one triplet per frame, no more than the constructs of a picture, and up to 60 fps no more than 60 triplets per second. |
| CaptionsFilter.Context.EnqueueTriplets | native/ffmpeg/vf_docichcc.c:373-385 | All or nothing: the whole sequence is queued and counted, or nothing changed. |
| CaptionsFilter.Context.HandlePrepare | native/ffmpeg/vf_docichcc.c:414-457 | The fields after the call are those of the specified prepare transition, errors included. |
| CaptionsFilter.Context.HandleCommit | native/ffmpeg/vf_docichcc.c:499-524 | The fields after the call are those of the specified commit transition. |
| CaptionsFilter.Context.HandleErase | native/ffmpeg/vf_docichcc.c:477-538 | The fields after the call are those of the specified clear or reset transition. |
| CaptionsFilter.Context.HandleRequest | native/ffmpeg/vf_docichcc.c:459-543 | Dispatch and all error codes as specified. |
| CaptionsRequests.AcceptedExactly | native/ffmpeg/vf_docichcc.c:459-543 | A request is accepted exactly if sender, page, text, encoder and queue allow it, and then with exactly these effects on queue, pages, execution, client and log. |
| CaptionsRequests.OnlyTheActiveExecution | native/ffmpeg/vf_docichcc.c:508-511 | Only the execution whose captions are up can commit or clear, and no other can prepare while it is; the log has the id of the sender. |
| CaptionsRequests.RefusedTruly | native/ffmpeg/vf_docichcc.c:459-543 | A request that is not accepted changes nothing but the connection: its client is told the first reason that applies, in the order of the checks, and dropped. |
| CaptionsRequests.TextMeans | native/ffmpeg/vf_docichcc.c:280-296 | A caption is one line of 1 to 32 characters from space to tilde, or two with a newline between them. |
| CaptionsRequests.IdMeans | native/ffmpeg/vf_docichcc.c:265-278 | An execution id is 1 to 128 letters, digits, dots, underscores, colons and hyphens. |
| CaptionsRequests.CompletesExactly | native/ffmpeg/vf_docichcc.c:545-559 | A request that is through is reported and its client dropped, and a clear or reset ends the execution; otherwise nothing happens. |
| CaptionsRequests.LooksExactly | native/ffmpeg/vf_docichcc.c:561-611 | One look at the socket, case by case: while a request is pending nothing is read; otherwise a client is accepted, kept, dropped, refused or its line handled. |
| CaptionsFilter.Context.StartPending | native/ffmpeg/vf_docichcc.c:399-412 | The request waits for everything queued; a client that cannot be told is dropped. |
| CaptionsFilter.Context.CompletePending | native/ffmpeg/vf_docichcc.c:545-559 | Completion as specified, forgetting the execution after a clear or reset. |
| CaptionsFilter.Context.ServiceSocket | native/ffmpeg/vf_docichcc.c:561-611 | One look at the client socket as specified, at most one client and one request at a time. |
| CaptionsFilter.Context.FilterFrame | native/ffmpeg/vf_docichcc.c:748-772 | One frame as specified. |
| CaptionsFilter.Stream | native/ffmpeg/vf_docichcc.c:748-772 | Running the filter over any sequence of frames ends in the state the specification runs to, which satisfies the invariants. |
| CaptionsFilter.Context.CloseClient | native/ffmpeg/vf_docichcc.c:99-108 | Closing forgets the pending request. |
| HandoffText.SplitDocument | ops/local/handoff_rotate.py:100-133 | The index-collecting splitter computes the recursive split at headings outside fences. |
| HandoffText.CollectStarts | ops/local/handoff_rotate.py:102-115 | A line is listed if and only if it is a heading outside the fences open before it; the list is in order. |
| HandoffText.StartsExactly | ops/local/handoff_rotate.py:105-115 | Membership in the recursive list of starts, by the fence state before the line. |
| HandoffText.SplitBySlices | ops/local/handoff_rotate.py:116-133 | Cutting at the collected starts is the recursive split. |
| HandoffText.JoinLines | ops/local/handoff_rotate.py:102 | Splitting a text into lines and joining them gives the text back. |
| HandoffText.FirstLineMeans | ops/local/handoff_rotate.py:102 | The first line ends with the first line break, where carriage return and newline are one, or with the text. |
| HandoffText.TokenMeans | ops/local/handoff_rotate.py:62 | A fence token is three or more backticks or tildes after any indentation, and it is as wide as the run. |
| HandoffText.FenceMeans | ops/local/handoff_rotate.py:106-114 | Outside a fence a token opens one, which only a token of the same mark, as wide or wider, closes; no other line changes the fence. |
| HandoffText.HeadingMeans | ops/local/handoff_rotate.py:60 | A section heading is two hashes, a space and a character that is not white space. |
| HandoffText.LinesConcat | ops/local/handoff_rotate.py:102 | Lines of a concatenation are the concatenated lines when the first part is newline-terminated. |
| HandoffText.SplitLossless | ops/local/handoff_rotate.py:100-133 | Preamble and sections are all the lines, in order. |
| HandoffText.SplitConcat | ops/local/handoff_rotate.py:100-133 | Splitting a concatenation is splitting the second part in the fence state the first part leaves, appended to the split of the first. |
| HandoffSections.SplitLosesNothing | ops/local/handoff_rotate.py:100-133 | Preamble plus sections is the document, as text. |
| HandoffSections.CutBeforeSection | ops/local/handoff_rotate.py:330-335 | Cutting before any section: the kept text ends at a boundary and splits into exactly the kept sections, the removed text into exactly the rest. |
| HandoffSections.BoundaryConcat | ops/local/handoff_rotate.py:227-229 | A newline-terminated, fence-closed text followed by one that begins with a heading has the sections of both, in order. |
| HandoffSections.AppendedSectionsAreFound | ops/local/handoff_rotate.py:315-327 | Appended sections are found again exactly when the existing text is newline-terminated and outside every fence. |
| HandoffSections.SectionsAreWhole | ops/local/handoff_rotate.py:100-133 | Every section of a document that ends at a boundary is complete by itself. |
| HandoffSections.AppendWholeSections | ops/local/handoff_rotate.py:315-327 | Appending complete sections to such a text adds exactly those sections. |
| HandoffStore.ArchiveWriteHolds | ops/local/handoff_rotate.py:318-327 | Writing a month of complete sections to its archive, new or existing, adds exactly those sections and keeps everything already held. |
| HandoffStore.HeaderIsBoundary | ops/local/handoff_rotate.py:318-319 | A fresh archive header ends at a boundary and holds no section. |
| HandoffStore.ArchiveWritesKeepInv | ops/local/handoff_rotate.py:317-327 | Archive writes alone, however far they got, keep the store invariant. |
| HandoffStore.HandoffWriteKeepsInv | ops/local/handoff_rotate.py:332-335 | Rewriting the handoff to the kept prefix keeps the invariant and everything that was ever in it. |
| HandoffStore.IndexWriteKeepsInv | ops/local/handoff_rotate.py:337-345 | Appending the index entry keeps the invariant. |
| HandoffStore.PrependKeepsInv | ops/local/handoff_rotate.py:5-19 | Prepending complete sections adds exactly those sections and keeps the invariant. |
| HandoffStore.InvMeansVerified | ops/local/handoff_rotate.py:364-396 | On an invariant store the verifier finds nothing missing. |
| HandoffStore.NothingIsLost | ops/local/handoff_rotate.py:303-345 | On an invariant store every section that was ever in the handoff is in it or in an archive. |
| HandoffRotate.Reference | ops/local/handoff_rotate.py:147 | The newest known timestamp. |
| HandoffRotate.SelectPrefix | ops/local/handoff_rotate.py:136-153 | At least the newest `keep`, every recent section, at least one and at most all, and no longer than these demand. |
| HandoffRotate.PrefixUnique | ops/local/handoff_rotate.py:136-153 | The kept prefix is determined: two lengths that keep enough and no more are equal. |
| HandoffRotate.ArchiveGroups | ops/local/handoff_rotate.py:217-224 | Strictly ascending months that together hold exactly the given sections, repetitions included; every section is in the group of its own month, and each month is in the order of timestamp and digest. |
| HandoffRotate.EarlierMeans | ops/local/handoff_rotate.py:217-224 | Undated sections come first, then by timestamp; the digest decides only where these agree. |
| Strings.StringLeqMeans | ops/local/handoff_rotate.py:217-224 | Of two strings the first is a prefix of the second or smaller where they first differ. |
| HandoffRotate.DigestCounts | ops/local/handoff_rotate.py:232-237 | The counts are the multiset of the sections. |
| HandoffRotate.Store.AppendGroup | ops/local/handoff_rotate.py:317-327 | One archive write and its check: true exactly when every section of the group is found again. |
| HandoffRotate.Store.ArchiveAll | ops/local/handoff_rotate.py:316-328 | Over all months, interrupted anywhere: archives only grow, on success hold exactly the records, and on a sound store no check fails and nothing but the given sections is added. |
| HandoffRotate.Store.RotateLocked | ops/local/handoff_rotate.py:303-345 | With agents acting before both comparisons, before the replacement and before the check: the handoff is replaced only if both comparisons found it unchanged and every removed section was found in its archive, and then by exactly preamble plus kept sections, whatever it held at that moment; the check fails exactly when agents changed the sections before it, and then nothing is indexed; a sound store stays sound wherever the run stops, after its index entry too, and it is interrupted only where told to. |
| HandoffRotate.Store.Rotate | ops/local/handoff_rotate.py:267-300 | The whole command, with agents also acting before the lock; nothing to do only if the last section is to be kept. |
| HandoffRotate.Store.Tally | ops/local/handoff_rotate.py:372-380 | The expectation table holds the recorded digests per archive with multiplicity. |
| HandoffRotate.Store.Verify | ops/local/handoff_rotate.py:364-396 | True exactly when every archive holds the digests recorded for it, counting repetitions. |
| HandoffRuns.RewriteAccounts | ops/local/handoff_rotate.py:330-335 | A replacement exchanges the kept sections for what agents then made of them and loses nothing that had been read. |
| HandoffRuns.OverwriteLosesExactly | ops/local/handoff_rotate.py:327-331 | Nothing is lost between the second comparison and the replacement exactly when the handoff then held no more sections than were read, counting repetitions. |
| HandoffRuns.OverwrittenIsFoundExactly | ops/local/handoff_rotate.py:327-331 | As texts: a section can be read after the replacement exactly when it was in what had been read or in an archive before. |
| HandoffOverlooked.LosingRotation | ops/local/handoff_rotate.py:327-345 | The losing run: an agent prepends a section after the second comparison, the rotation succeeds, the verifier accepts, and the section is nowhere. |
| HandoffRuns.CheckFailsExactly | ops/local/handoff_rotate.py:333-335 | The final check fails exactly when an agent prepended before it; nothing is indexed and the store stays sound. |
| HandoffRuns.StepConserves | ops/local/handoff_rotate.py:303-345 | One prepend or one rotation, complete or interrupted, keeps the invariant, and everything ever in the handoff grows by what arrived except what was overwritten unseen. |
| HandoffRuns.RunConserves | ops/local/handoff_rotate.py:303-345 | The same totals over any run. |
| HandoffRuns.RunLosesNothing | ops/local/handoff_rotate.py:303-396 | Over any run the verifier accepts at every moment. The history of the handoff, what it holds and what was moved out of it, is complete, counting repetitions, exactly when no rotation replaced a handoff into which an agent had written after the second comparison; then every section ever there can still be read in the files. Otherwise the history lacks an occurrence; a file may still hold the same text, as a copy that an interrupted run archived. |
| HandoffRuns.SeenSectionsStay | ops/local/handoff_rotate.py:303-345 | In any case a section that was in the handoff between two events stays in it or in an archive. |
| DeployPlan.AncestorTransitive | ops/vm_actions/gateway.py:919-925 | Commit ancestry composes along the graph. |
| DeployPlan.PlanRepaired | ops/vm_actions/gateway.py:557-606 | Planning one projection succeeds exactly when every deviation from the old blobs is a fitting repair or already the new blob; the changes are the free paths still to be changed, each once, and the remaining repairs those not adopted. |
| DeployPlan.PlanRepairs | ops/vm_actions/gateway.py:559-585 | Succeeds exactly when repairs are active, disjoint, live as patched and made from the baseline; returns what stays pending. |
| DeployPlan.PlanRepair | ops/vm_actions/gateway.py:565-582 | The checks and the kept files of one repair. |
| DeployPlan.PlanChanges | ops/vm_actions/gateway.py:586-605 | Every changed path that is neither repaired nor excluded is live as old or as new; exactly the former become changes. |
| DeployPlan.PlanBrief | ops/vm_actions/gateway.py:742-766 | Succeeds exactly when the artifact is valid, not removed, and the live brief is the baseline version. |
| DeployPlan.PlanProjections | ops/vm_actions/gateway.py:789-811 | The whole plan: succeeds exactly when the request is plannable; every change goes from the live baseline content to the requested content on a path no repair owns, each path once, and every concerned path is planned, repaired or already as requested. |
| DeployFiles.LiveFiles.Capture | ops/vm_actions/projection_io.py:153-160 | Taking a live file moves exactly what is there into escrow. |
| DeployFiles.LiveFiles.Link | ops/vm_actions/projection_io.py:56-60 | Publishing never replaces an existing name. |
| DeployFiles.LiveFiles.Swap | ops/vm_actions/projection_io.py:143-172 | The core of a replacement leaves the file old, new, or absent with the old content in escrow. |
| DeployFiles.LiveFiles.Occupy | ops/vm_actions/projection_io.py:143-172 | Taking the live name and publishing the desired content: what was found, taken and put is recorded in every world. |
| DeployFiles.LiveFiles.Replace | ops/vm_actions/projection_io.py:132-187 | Compare-and-swap: without I/O failure it succeeds exactly when the content is the expected one; on a mismatch nothing changes; whatever other programs do, nothing taken from a live name is destroyed, and only the desired content or one taken from the path before is put there, and if steps do not fail a failed exchange never leaves the name empty. |
| DeployFiles.LiveFiles.Apply | ops/vm_actions/gateway.py:614-625 | Success means exactly the planned files changed to their new content; a failure leaves each file old, new or in escrow; in every world all writes are on planned paths and between the two contents of their change. |
| DeployFiles.LiveFiles.ApplyOne | ops/vm_actions/gateway.py:614-625 | One planned file: looked at, exchanged and recorded as mutated. |
| DeployFiles.LiveFiles.ApplyAll | ops/vm_actions/gateway.py:967-969 | The same over all projections in turn. |
| DeployFiles.LiveFiles.RollBackOne | ops/vm_actions/gateway.py:632-640 | An old file is left alone, a new one made by this deploy is restored, anything else is reported and not touched; in every world success has seen the old content last. |
| DeployFiles.LiveFiles.RollBack | ops/vm_actions/gateway.py:628-641 | Restores or preserves, continuing after a drift: files that are ours end old, all others keep their content, and drift is reported exactly when there was one. In every world success has seen every file old. |
| DeployFiles.LiveFiles.RollBackAll | ops/vm_actions/gateway.py:1009-1011 | The same over all begun projections, last first. |
| DeployFiles.LiveFiles.AssertNew | ops/vm_actions/gateway.py:614-619 | Passes only if every planned file holds its new content; in every world each was seen so by a look of this check. |
| DeployFiles.ExtendsJoin | ops/vm_actions/gateway.py:614-641 | Justified stretches of writes compose to justified writes of the whole plan. |
| DeployFiles.UndoneNext | ops/vm_actions/gateway.py:630-640 | Rolling back one more change extends the guarantee by that change. |
| DeployFiles.UndoneJoin | ops/vm_actions/gateway.py:1009-1011 | Rolling back a whole projection extends the guarantee by all its changes. |
| DeployFiles.NewContentAloneIsDrift | ops/vm_actions/gateway.py:636-637 | A file that somebody else brought to the new content is not rolled back: it counts as drift and keeps that content. |
| DeployRecord.Remember | ops/vm_actions/gateway.py:948-949 | The rebaseline history ends with the new move and never exceeds ten. |
| DeployRecord.RememberMeans | ops/vm_actions/gateway.py:948-949 | The history keeps the newest nine moves in order and ends with the new one. |
| DeployRecord.RebasedMeans | ops/vm_actions/gateway.py:948-956 | Adopting a checkout records it, the move and the previous commit, and keeps the baseline, the repairs and the managed files. |
| DeployRecord.WithIntentMeans | ops/vm_actions/gateway.py:959-960 | The intent says from which baseline to which commit, and which commit to go back to; the rest of the record stays. |
| DeployRecord.Monitor | ops/vm_actions/gateway.py:978-994 | Managed afterwards are the managed files and those whose repair was adopted, each with its adopted, new or unchanged content. |
| DeployRecord.PlanConverges | ops/vm_actions/gateway.py:679-702 | A plan applied without interference leaves every concerned path with exactly the requested bytes and mode, brief included, and every repaired file as it was. |
| DeployRecord.ChecksCannotFail | ops/vm_actions/gateway.py:973-974 | After such an application the pending and the convergence check cannot fail. |
| DeployRecord.PendingLiveMeans | ops/vm_actions/gateway.py:650-656 | The pending check holds exactly if every file that a pending repair patches is live as patched. |
| DeployRecord.BriefOkMeans | ops/vm_actions/gateway.py:719-725 | A commit without a brief asks for nothing, an invalid one fails, and a valid one must be live in full with mode 0644 in a configured projection. |
| DeployRecord.ManagedFailsExactly | ops/vm_actions/gateway.py:663-676 | The managed check fails exactly if a managed projection is not configured, a managed file that no pending repair owns is not as recorded, or the brief of the baseline is not. |
| DeployRecord.FinalMeans | ops/vm_actions/gateway.py:994-1003 | The final record: the requested commit without a separate baseline, the remaining repairs, and the brief as a managed file if the commit has one. |
| DeployRecord.ManagedStaysOk | ops/vm_actions/gateway.py:663-676 | If the managed files matched before, what a calm deployment records matches after, with repairs adopted fully, partly or not at all. |
| DeployRecord.ManagedOverAnyRun | ops/vm_actions/gateway.py:663-676 | Across any number of calm deployments, staged repairs, rebaselines and rolled-back deployments, with the game rewriting unmanaged files in between, the managed files stay as recorded. |
| DeployRecord.StagingKeepsManaged | ops/vm_actions/stage_repair.py:118-133 | Staging a repair, which touches only its own files, keeps the managed files as recorded. |
| DeployRecord.DeployAdvances | ops/vm_actions/gateway.py:886-1041 | Whatever state a deploy leaves, finished, rolled back, failed or killed, its effective baseline descends from the one before. |
| DeployRecord.BaselineOnlyMovesForward | ops/vm_actions/gateway.py:843-1089 | Over every run of bootstraps, deploys, rebaselines and repair stagings the effective baseline only moves to descendants. |
| DeployRecord.DeployMovesForwardExactly | ops/vm_actions/gateway.py:917-946 | What a deploy leaves recorded descends from the recorded commit exactly if it is not the requested commit with that one no ancestor of it. |
| DeployRecord.EveryOutcomeForwardExactly | ops/vm_actions/gateway.py:917-946 | Decided before the call: every outcome of a deploy moves the recorded commit forward exactly if the recorded commit has an intent, or the request fails the lineage check, or descends from the recorded commit. |
| DeployRecord.RebaselineMovesForwardExactly | ops/vm_actions/gateway.py:1058-1082 | A manual rebaseline moves the recorded commit forward exactly if the adopted checkout descends from it. |
| DeployRecord.OperationMovesForwardExactly | ops/vm_actions/gateway.py:843-1089 | Over all operations the recorded commit moves forward except in exactly two: a rebaseline of a checkout that does not descend from it, and a finished deploy of a commit that descends only from the baseline. |
| DeployRecord.RecordedMovesForward | ops/vm_actions/gateway.py:843-1089 | Over every run without those two the recorded commit only moves to descendants. |
| DeployRecord.RecordedCommitMayMoveBack | ops/vm_actions/gateway.py:921-946 | Both occur: a manual rebaseline of an older checkout; and a deploy of a sibling of a rebaselined commit, which is compared with the kept baseline only. |
| DeployRecord.IntentStays | ops/vm_actions/gateway.py:890 | Once an intent is on disk, every later operation leaves the record as it is, but for pending repairs. |
| DeployGateway.Gateway.Bootstrap | ops/vm_actions/gateway.py:843-852 | Records a clean checkout once; refused exactly when a baseline exists, the bundle is missing, the checkout is dirty or the brief drifted; in every world the recorded commit was seen checked out cleanly with its brief in place. |
| DeployGateway.Gateway.Save | ops/vm_actions/gateway.py:260-273 | The state file is the old or the new one; a failure may be reported for a write that happened. |
| DeployGateway.Gateway.Reset | ops/vm_actions/gateway.py:962-964 | Success means the clean checkout of that commit. |
| DeployGateway.Gateway.Prepare | ops/vm_actions/gateway.py:910-964 | Passes exactly when the request descends from the baseline and the checkout is as recorded or a newer clean ancestor with a matching brief; an adopted checkout is recorded first, then the intent, and whenever the checkout was touched the intent is on disk. |
| DeployGateway.Gateway.Project | ops/vm_actions/gateway.py:965-977 | Plans, applies and checks; without interference or failure it passes exactly when the request is plannable and the health command passes. In every world a pass has seen files for which this is the plan, made exactly its writes, and seen all checks hold after the last one. |
| DeployGateway.Gateway.Inspect | ops/vm_actions/gateway.py:970-977 | The checks after the last write: in every world a pass has found the clean checkout of the commit, the pending repairs in place, the files converged, the health command passing and every planned file new. |
| DeployGateway.Gateway.Commit | ops/vm_actions/gateway.py:978-1006 | Writes the final record and checks again; after calm planning and application it cannot fail. In every world a pass has seen the managed files, the remaining repairs and every planned file in order after the record was written. |
| DeployGateway.Gateway.Recheck | ops/vm_actions/gateway.py:1004-1006 | The checks after the final record. |
| DeployGateway.Gateway.Abort | ops/vm_actions/gateway.py:1007-1028 | Restores or preserves every begun change, then records either the previous state or an intent that asks for recovery: exactly when something was not ours to restore. In every world a rolled back deploy has seen every begun file old. It leaves an intent exactly if one was on disk whose writing had been reported as failed. |
| DeployGateway.Gateway.Transact | ops/vm_actions/gateway.py:910-1006 | The transaction as a whole: what it leaves on disk and which files it may have touched, at every exit, and on success exactly which records were written, in order. |
| DeployGateway.Gateway.Admit | ops/vm_actions/gateway.py:886-909 | The checks before anything is written: in every world a pass has seen the managed files in order and the checkout clean, and the bundle is there. |
| DeployGateway.Gateway.Deploy | ops/vm_actions/gateway.py:886-1041 | Without interference or failure it deploys exactly when bundle, health and preconditions hold and otherwise leaves every live file as it was; a calm success leaves checkout, record and files consistent and repaired files untouched; whatever other programs do, every write is on a file the request is about and no repair owns; after interference the handler restores or preserves and reports drift exactly; an intent makes it refuse with nothing changed; after a kill outside the exception handler the files are old, or an intent is on disk, or every file is as requested; after a kill inside it changed files have an intent or the final record; a deploy that rolls back leaves an intent only if a write of it was reported as failed, and then no file was changed. |
| DeployGateway.Gateway.DieRollingBack | ops/vm_actions/gateway.py:1007-1016 | The other kill: for any two planned changes, a handler that dies between them after the final record leaves one file new and one old, a record of the finished deployment, and no intent. |
| DeployGateway.Gateway.Rebaseline | ops/vm_actions/gateway.py:1046-1089 | Adopts a clean checkout that is an ancestor of the request, exactly when the checks pass, and keeps the baseline of the live files; in every world the adopted commit was seen checked out cleanly with its brief in place. |
| DeployGateway.Restored | ops/vm_actions/gateway.py:1007-1011 | Old again at every planned path and untouched elsewhere means the old files. |
| DeployGateway.PlannedWrites | ops/vm_actions/gateway.py:557-641 | Writes justified by a plan are writes the request wants, in every world. |
| PolicyInstall.Installer.Plan | ops/hotfixes/apply_founding_policy_20260907.py:158-169 | Succeeds exactly when the source is genuine and every target is old or new; plans exactly the targets that are not new. In every world a success has found each planned target old and each other new. |
| PolicyInstall.Installer.WriteAll | ops/hotfixes/apply_founding_policy_20260907.py:179-187 | In the order of the plan, and in every world no item is begun that was not seen old right before; success leaves every item new, a failure every item old or new. |
| PolicyInstall.Installer.VerifyAll | ops/hotfixes/apply_founding_policy_20260907.py:188-191 | Passes exactly when every target has its new bytes and mode; in every world a pass has found each of them so after the last write. |
| PolicyInstall.Installer.RollBack | ops/hotfixes/apply_founding_policy_20260907.py:192-203 | In reverse; without interference or failure every item is old again, and it stops exactly at a file that is neither. In every world success has found each item old or put it back. |
| PolicyInstall.Installer.Install | ops/hotfixes/apply_founding_policy_20260907.py:180-204 | The `try` and its handler: installed only after all writes and a full verification that followed them; rolled back only after every begun item was found old or put back, in reverse. |
| PolicyInstall.Installer.Apply | ops/hotfixes/apply_founding_policy_20260907.py:157-204 | All or nothing: success leaves all targets new, a caught failure with a clean rollback restores all files; any outcome leaves each target old or new, so a rerun after a crash installs everything. In every world each write follows a look that found the pinned content, success follows a look at every target after the last write, and a refusal wrote nothing. |
| PolicyInstall.FullyReverted | ops/hotfixes/apply_founding_policy_20260907.py:192-203 | Every item old and nothing else touched means the original files. |
| PolicyInstall.AfterWriting | ops/hotfixes/apply_founding_policy_20260907.py:179-191 | Any prefix of the writes leaves every target old or new, all of them all new. |
| RepairJobs.NextEvent | ops/self_repair/worker.py:233-251 | The eligible event with the greatest time and id; none exactly when there is none or a capacity is reached. |
| RepairJobs.EligibleExactly | ops/self_repair/worker.py:233-251 | An event may become a job from one minute before its time to fifteen minutes after it, unless a job has its id, or has its context and was created less than the cooldown ago; at most 999 jobs and 512 events. |
| RepairJobs.LeqOrder | ops/self_repair/worker.py:251 | Time and then id order events totally and transitively, equal only for equal time and id. |
| RepairJobs.QueueKeepsInv | ops/self_repair/worker.py:37-40 | Queueing an eligible event keeps jobs of one context at least the cooldown apart, whatever the clock did, and at most 1000 jobs. |
| RepairJobs.Worker.Enqueue | ops/self_repair/worker.py:279-284 | On working files a queued job for the newest eligible event is saved, created now; none exactly when no event is eligible. |
| RepairJobs.Worker.Prepare | ops/self_repair/worker.py:186-218 | An old event expires, a healthy service is not repaired, else a candidate is made. |
| RepairJobs.Worker.Push | ops/self_repair/worker.py:219-221 | The job becomes pushed exactly when its candidate was pushed, once, and the file agrees with it. |
| RepairJobs.Worker.Stage | ops/self_repair/worker.py:222-227 | The job is called staged exactly when the gateway applied its repair, once, and only with the identity of the repair. |
| RepairJobs.Worker.Ask | ops/self_repair/worker.py:132-136 | The publisher is asked exactly when no non-empty URL is known, and on working files its answer is saved before anything else. |
| RepairJobs.PullRequestMeans | ops/vm_actions/stage_repair.py:147 | The ledger accepts exactly the pull request address followed by the decimal numeral of a positive number. |
| RepairJobs.WorkKeepsInv | ops/self_repair/worker.py:182-230 | Work on a job keeps spacing, capacity and the fields each status needs. |
| RepairJobs.Worker.Publish | ops/self_repair/worker.py:132-142 | The publisher is called exactly when no non-empty URL is known; the status becomes awaiting_review exactly when an address that the ledger accepts was attached, once. |
| RepairJobs.Worker.Steps | ops/self_repair/worker.py:182-230 | Any number of steps, failing or dying anywhere, moves the saved job and the one in memory only forward, and does each command between the two ends exactly once. |
| RepairJobs.Worker.Process | ops/self_repair/worker.py:285-292 | The handler saves a failed job, as needs_attention exactly when it was still queued, on working files always. |
| RepairJobs.Worker.Tick | ops/self_repair/worker.py:274-293 | One tick keeps the invariant, adds at most one job, works on at most one, and calls the publisher for at most one job, never one with a non-empty saved URL. On working files an eligible event is queued, the newest one, and an active job, if there is one, is worked on. |
| RepairJobs.AlwaysSpaced | ops/self_repair/worker.py:37-40 | Over any run, whatever the clock does, jobs of one context stay the cooldown apart and at most 1000. |
| RepairJobs.StatusOnlyMovesForward | ops/self_repair/worker.py:182-230 | Over any run a job keeps event and creation time and its status only moves forward. |
| RepairJobs.PublishedOnce | ops/self_repair/worker.py:132-142 | Once a non-empty URL is saved, no later tick calls the publisher for the job. |
| RepairJobs.EmptyUrlIsAskedAgain | ops/self_repair/worker.py:134-141 | An empty URL that was saved does not count: a run in which the next tick asks the publisher again. |

## Left out

- Screens and JSON: ANSI decoding, colour matching, board, arena and maze parsing, `find_cells`, `find_tail`, JSON field scanning and base64 are tables and scanning; the models start from boards, cells and parsed requests. Start menus and overlays are left out with them.
- Bastet weights are reals and values are exact; floating-point rounding is not modelled. Breaking ties between equal values then follows the code's rule exactly, not up to rounding.
- SnakePlan.Decide: rows are taken as cut from the screen, 76 columns each, because the parser that guarantees it is not modelled; the direction order on equal space is the order of names, as in the source's sort.
- Pacman.Decide: head, food and ghosts are walkable, as the map fallback at brains/pacman4console/brain.py:96-100 ensures.
- The caption encoder is a parameter that returns triplets or fails; bytes on the wire, socket set-up, libcaption and FFmpeg's FIFO internals are not modelled. The FIFO is a sequence that injects at most the budget and enqueues all or nothing. Counters are unbounded; 64-bit wrap-around is out of reach of a stream.
- Handoff texts are strings; UTF-8 decoding, size limits, permissions, symlink and Git checks and the lock file are left out. The timestamp and month of a section and the order of digests are parameters.
- HandoffRotate.Store.Rotate: the heading, byte counts and timestamps of an index entry are left out.
- Ancestry is computed over one object store that holds all commits; importing bundles and submodule fetches are steps that may fail. Projections have separate destinations; nested destinations are not modelled. Paths that are symlinks or not regular files, and Git entries other than regular files, appear only as steps that may fail.
- DeployPlan.PlanProjections: reads the live files in one look and in no particular order, because each planned file is compared again before it is replaced.
- DeployGateway.Gateway.Deploy: pruning, garbage collection and the returned report are left out, and so is the digest of the brief's source kept in the state file. The health command is one boolean.
- Staging a repair (`ops/vm_actions/stage_repair.py`) enters runs of `DeployRecord` as a step that appends to the pending list and changes only the repair's files; its checks, and operator recovery of an intent, are outside the model.
- The policy installer's spawn lease, runtime protocol check, backup contents and payload fetch are steps that may fail or are left out; reading bytes and mode is one look.
- RepairJobs.Worker.Tick: the order in which the job directory is listed is arbitrary, except that older jobs come before the new one; stray files in the job directory are left out, as are the commands themselves.
- Preview releases, bundle upload and pruning, remote execution, operator parity, hot fixes with pinned replacements, benchmarks, LLM clients and bot logging: input and output around logic that is flat.

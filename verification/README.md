# Trackstar: verified models of its services and board logic

Trackstar is a project tracker: stories move between the panels of a board, go
through a workflow, block each other, are packed into iterations, and are
reached by connected apps through OAuth grants. This project models the
algorithms behind that in Dafny and proves what they promise over all inputs
and all runs.

## Layout

| files | subject |
|---|---|
| `Sequences`, `Ordering` | lists, options and results; the displayed order of a set of positioned rows |
| `Position`, `States` | sparse integer positions; the workflow's tables |
| `StoryModel` | the story store and each transaction of the story service as a function on it |
| `StoryService` | the service as a class: each method runs its transaction step by step and is proved equal to that function, rollback included |
| `StoryPlacement`, `StoryOrder`, `StoryRoom` | placing refines a plain list; how much room a section keeps |
| `StoryLinks`, `StoryUpdates`, `StoryEffects` | when each request is accepted, how it is refused, and everything it changes and logs |
| `StoryTies`, `StoryReopening`, `StoryExamples` | when two positions tie and when a story leaves accepted, exactly; runs that reach a tie and a drop the board guesses wrong |
| `Blockers`, `Workflow`, `StoryInvariants`, `StoryRuns`, `StoryRebalances` | the blocker graph, the activity log, what every run keeps, and how far apart rebalances lie |
| `StoryBulk`, `StoryOutcomes`, `StoryCreations`, `StoryTools`, `StoryViews` | bulk moves and bulk creation, all-or-nothing and item by item, and which items succeed; the list and detail views |
| `Board`, `Projection` | the browser's optimistic copy of the board; the backlog projection |
| `OAuth`, `OAuthService`, `OAuthEffects`, `OAuthRuns`, `OAuthConsent`, `OAuthLifetimes`, `OAuthExamples` | clients, codes, grants and tokens: transactions, the service, what each request is answered and ends, safety over runs, the consent behind each token and how long it works, replays that end nothing |
| `Hub`, `Live` | the change feed and the browser's side of it |
| `Iteration`, `Velocity` | calendar iterations; history and velocity |
| `Limiter`, `Slug`, `Checklist` | the attempt limiter; slugs and references; task lists |

`dafny verify dfyconfig.toml` checks everything.

## How the system is modelled

* The store is a class whose fields are maps. One transaction is one atomic
  step: it either changes the store or refuses and leaves it as it was. A query
  or a cascade is modelled by its stated meaning. Runs start from an empty
  store, and store reads do not fail.
* A section's displayed order is `ORDER BY position, id`. `Panel` is that list;
  the ordering theorems speak about `Panel` before and after, so they cover
  rebalances, ties and frozen positions alike.
* `Meter`, `approvals`, `serials`, `issued` and `calls` are accounting for the
  proofs: how many placements, rebalances and reopenings a section has seen, which
  approval a grant row and a secret belong to, what was reported. They are ghost
  fields of the classes; the services do not keep them.
* New row keys and new secrets are parameters; that they are not in use already
  is the only thing assumed about them. A secret is identified with its hash.
  The clock is a parameter, and does not run backwards where that is stated.
* A calendar is a function from day numbers to the instant each local day
  begins. It has to increase and the anchor has to lie in its day; nothing else
  is assumed about clock changes except where a theorem names a bound on drift.
  Instants are whole seconds, as iteration boundaries and acceptance times are.
* Lower-casing and the tests for letters and digits are parameters of the slug
  model. What is relied on is stated in `Slug.Alphabet`.

## Where the code differs from what is said about it

* `internal/story/states.go:41` calls accepted terminal. The table below it lets
  an administrator reopen an accepted story into delivered, and the model
  follows the table. A story leaves accepted by such an update and by nothing
  else (`StoryReopening.LeavesAccepted`, over runs
  `StoryReopening.AcceptedUntilReopened`).
* Positions in a section are not always distinct. A reopened story re-enters the
  current section with the position it had when it was accepted. That ties two
  stories if and only if one of the section sits on that position, and nothing
  else ever does (`StoryTies.StepTies`, `StoryTies.TiesComeFromReopening`).
  `StoryExamples.TieIsReached` is a run that gets there. The ordering theorems
  hold regardless, and the next rebalance makes the positions distinct again.
* The board and the server can disagree after a drop between two rows that share
  a position: the server rebalances, the board's midpoint is a tie that ids
  break. `Board.OptimisticMove` gives the exact condition and
  `StoryExamples.TiedDropDisagrees` an instance.
* `internal/iteration/iteration.go:13` says the anchor is inside iteration 1. It
  is if and only if the iteration is longer than the days from the start weekday
  to the anchor, which every length a project can be given is
  (`Iteration.AnchorInFirst`; `Iteration.AnchorAfterFirst` is an instance).
* `internal/auth/oauth.go:185-187` and `internal/auth/oauth.go:257-259` say that a
  redeemed code and a rotated refresh token, presented again, revoke the grant.
  A rotated token does if and only if its row is stored and the client presenting
  it is the grant's own, a redeemed code if and only if its row is stored and the
  client is registered (`OAuth.ReplayedTokenEnds`, `OAuth.ReplayedCodeEnds`; over
  runs `OAuthRuns.ReplayedTokenEndsApproval`, `OAuthRuns.ReplayedCodeEndsApproval`).
  Under another client's id a rotated token is refused before its reuse is looked
  at, and the grant stays (`OAuthExamples.OtherClientKeepsGrant`; for codes
  `OAuthExamples.UnknownClientKeepsGrant`). Once a token or code has expired and a
  prune, or for a code the next approval, has removed it, it is refused like an
  unknown one and the grant stays too (`OAuth.PruneForgetsUsedCodes`,
  `OAuth.PruneForgetsExpiredLeaks`; `OAuthExamples` reaches both).

## Model

| member | source | states |
|---|---|---|
| `Position.Between` | internal/story/position.go:18-31 | a position exists exactly when the neighbours leave room for one, and it lies strictly between them |
| `Position.Normalize` | internal/story/position.go:34-40 | n positions one gap apart, the first one gap above zero |
| `Position.BetweenHalves` | internal/story/position.go:12-29 | a midpoint leaves at least half the room on each side, a full gap at an end |
| `Position.BetweenFits` | internal/story/position.go:12-40 | with positions within n gaps of zero and n below 2^46, every midpoint, difference and renumbered position is an int64 |
| `Ordering.DisplayUnique` | internal/database/dbgen/stories.sql.go:493-499 | `ORDER BY position, id` determines the displayed list, ties included |
| `StoryPlacement.PlaceCorrect` | internal/story/story.go:679-728 | placing keeps every row but its position, keeps the section's displayed order, rebalanced or not, and gives a position strictly inside the slot asked for; it is refused exactly when the neighbour named is not there |
| `StoryPlacement.RenumberedKeepsOrder` | internal/story/story.go:717-727 | a rebalance does not change what the section shows |
| `StoryPlacement.RenumberedHasRoom` | internal/story/story.go:717-727 | after a rebalance every slot has room |
| `StoryService.Service.ListSectionPositions` | internal/story/story.go:679-684 | the query: the section's live rows by position, then id |
| `StoryService.Service.Rebalance` | internal/story/story.go:717-727 | the loop writes exactly the evenly spaced positions, in display order |
| `StoryService.Service.FindIndex` | internal/story/story.go:690-713 | the index named by the neighbours: after `prev`, else before `next`, else an end; none when the named one is not there |
| `StoryService.Service.PlaceBetween` | internal/story/story.go:715-728 | midpoint, or rebalance and midpoint, equals the placement function; nothing written on refusal |
| `StoryService.Service.PlaceStory` | internal/story/story.go:679-728 | the whole of `place` equals the placement function on the other rows of the section |
| `StoryOrder.MoveOrder` | internal/story/story.go:485-523 | an accepted move is remove-then-insert at the named index on plain lists, in every panel of every project, ties and rebalances included |
| `StoryOrder.MoveRefusal` | internal/story/story.go:690-713 | a move is refused for its neighbours if and only if the one it names is not among the section's other stories |
| `StoryOrder.CreateOrder` | internal/story/story.go:176-215 | a new story enters its panel on top of the icebox, at the bottom elsewhere, or right after the story it follows; no other panel changes |
| `StoryOrder.RestoreOrder` | internal/story/story.go:553-584 | a restored story goes to the bottom of its panel; an accepted one changes no order |
| `StoryOrder.DeleteOrder` | internal/story/story.go:527-549 | trashing takes the story out of its panel and changes nothing else |
| `StoryOrder.UpdateOrder` | internal/story/story.go:409-441 | a workflow step into another panel puts the story at its bottom, a step inside one keeps every order, accepting takes it out, reopening disturbs no other story's order |
| `StoryOrder.ReopenOrder` | internal/story/story.go:417-431 | a reopened story comes back right behind the stories ordered before its frozen position, ids deciding between equal ones; no other panel changes |
| `StoryRoom.PlaceSpread` | internal/story/story.go:715-728 | a placement at most halves the section's guaranteed room; a rebalance restores it to half a gap |
| `StoryRoom.RebalanceIsDue` | internal/story/story.go:715-722 | a section with guaranteed room left never rebalances: sixteen placements since the last one come first |
| `StoryService.Service.Create` | internal/story/story.go:149-226 | the step-by-step transaction equals the create transaction, and changes nothing when refused |
| `StoryService.Service.Update` | internal/story/story.go:347-481 | the step-by-step transaction equals the update transaction, and changes nothing when refused |
| `StoryService.Service.EditFields` | internal/story/story.go:375-407 | type, estimate, owner and requester are checked and logged in the order of the code |
| `StoryService.Service.ChangeState` | internal/story/story.go:409-441 | workflow check, reopening by administrators only, placing on a change of section, acceptance time, ownership on start, logged in order |
| `StoryService.Service.CheckPoints` | internal/story/story.go:443-460 | a feature in work needs an estimate, a bug or chore may have one only while its project allows it |
| `StoryService.Service.Move` | internal/story/story.go:485-523 | the step-by-step transaction equals the move transaction, and changes nothing when refused |
| `StoryService.Service.MoveMany` | internal/story/story.go:935-1007 | the loop over `prev` and `seen` equals moving the distinct ids one after the other, all or nothing |
| `StoryService.Service.Delete` | internal/story/story.go:527-549 | equals the delete transaction; a trashed or unknown story is refused |
| `StoryService.Service.Restore` | internal/story/story.go:553-584 | equals the restore transaction; a story not in the trash is refused |
| `StoryService.Service.UpdateProject` | internal/project/project.go:201-238 | switching points off clears them from every bug and chore of the project, trashed ones too |
| `StoryService.Service.Purge` | internal/story/story.go:586-606 | removes what was trashed long enough, with its log and every link to it |
| `StoryService.Service.Reach` | internal/story/tasks.go:169-183 | the recursive search equals `Reaches` |
| `StoryService.Service.CheckBlockers` | internal/story/tasks.go:134-160 | duplicates dropped; accepted if and only if at most twenty stories are named, each another live story of the project that does not lead back; what is stored are the ids named, once each, in the order of first mention |
| `StoryService.Service.SetBlockers` | internal/story/tasks.go:134-165 | replaces the story's links by exactly the ids asked for, in order of first mention, or changes nothing; no other story's links change |
| `StoryLinks.LinksExactly` | internal/story/tasks.go:134-183 | a list of blockers is accepted if and only if it names at most twenty stories, each another live story of the project from which neither the story itself is reachable nor a chain of fifty-one links leaves |
| `StoryLinks.MentionsUnique` | internal/story/tasks.go:141-163 | what is stored is determined by that: two lists of first mentions of the same ids are the same |
| `StoryUpdates.UpdateAccepted` | internal/story/story.go:347-481 | an update is accepted if and only if its edits, its step, the right to reopen, the points and the links are each in order; not found exactly for an unknown story, forbidden exactly for a reopening that lacks nothing but the right |
| `StoryUpdates.UpdateDoes` | internal/story/story.go:375-481 | what each field of the row becomes, which links are stored, and that nothing else changes but positions |
| `StoryUpdates.StateUpdateAnswered` | internal/story/story.go:409-460 | the answer to every state asked of every story by anyone: accepted along the workflow, out of accepted by administrators only, into work only with points on a feature, each refusal with its error |
| `StoryEffects.UpdateIsLogged` | internal/story/story.go:375-475 | the entries an update adds lead from the old type, state, points and owner to the new ones, each a real change from what was there |
| `StoryEffects.MoveExactly` | internal/story/story.go:485-523 | a move is accepted exactly for a story that may be dragged there next to one shown there; the row changes its state as dragged and its position, nothing else |
| `StoryEffects.MoveIsLogged` | internal/story/story.go:485-523 | a move logs the change of panel, and only that |
| `StoryEffects.CreateExactly` | internal/story/story.go:149-226 | a story is created exactly when what it names is there and its points are allowed; the row, its state and its links are what was asked for, nothing else changes but positions |
| `StoryEffects.DeleteExactly` | internal/story/story.go:527-549 | trashing stamps a live story and changes nothing else |
| `StoryEffects.RestoreExactly` | internal/story/story.go:553-584 | every trashed story can be restored, and comes back as it was but for its position |
| `StoryEffects.PurgeExactly` | internal/story/story.go:586-606 | exactly the stories trashed before the cut-off go, with their log, their links and the links to them; every other row and history stays |
| `StoryEffects.SettingExactly` | internal/project/project.go:201-238 | exactly the bugs and chores of the project lose their points, exactly when the option is switched off |
| `StoryRuns.RunKeepsInvariants` | internal/story/story.go:149-606 | from an empty store, every run of create, update, move, bulk move, delete, restore, purge and settings keeps the row rules, the acyclic blocker graph, the replayable log and the position bounds |
| `StoryRuns.RebalancesAreRare` | internal/story/story.go:715-728 | in every section of every run, at most one placement in sixteen rebalanced, plus one for each story reopened into it; unless one was reopened since the last rebalance, all positions differ |
| `StoryRebalances.RebalancesBetween` | internal/story/story.go:715-728 | between any two points of a run: sixteen placements for each rebalance, less those taken since the one before, plus one rebalance for each reopening; with none, sixteen placements lie from one rebalance to the next |
| `StoryTies.PlacedUntied` | internal/story/story.go:679-728 | a placement keeps the positions of every section distinct |
| `StoryTies.ReopenTies` | internal/story/story.go:417-431 | from distinct positions, a reopening ties two stories if and only if one of the section sits on the frozen position |
| `StoryTies.StepTies` | internal/story/story.go:149-606 | from distinct positions, any operation leaves them distinct if and only if it is not such a reopening |
| `StoryTies.TiesComeFromReopening` | internal/story/story.go:149-606 | on every run, a section's positions were distinct all along if and only if no story was reopened onto a taken one |
| `StoryExamples.TieIsReached` | internal/story/story.go:417-431 | a run from the empty store after which two stories sit on one position |
| `StoryExamples.TiedDropDisagrees` | web/src/lib/board.ts:79-103 | a drop between those two: the server shows the row between them, the board after both |
| `StoryRuns.PositionsStayInRange` | internal/story/position.go:12-40 | after fewer than 2^46 placements, on any run, no position, difference, midpoint or renumbered position leaves int64 |
| `StoryRuns.AcceptanceFollowsWork` | internal/story/states.go:42-58 | whenever the log shows an acceptance it shows started, finished and delivered before it, in that order, since the story was last planned; the last state logged is the state stored |
| `StoryReopening.LeavesAccepted` | internal/story/story.go:409-441 | over every operation: an accepted story is in another state afterwards if and only if the operation is an administrator's accepted update of it to delivered |
| `StoryReopening.ReopeningAccepted` | internal/story/story.go:409-441 | asking for nothing but that is accepted if and only if the story is not trashed and the actor is an administrator |
| `StoryReopening.AcceptedUntilReopened` | internal/story/states.go:42-58 | over every run: a story once accepted, and not purged, stays accepted if and only if no such update comes |
| `StoryRuns.ApplyKeeps` | internal/story/story.go:149-606 | one operation of any kind keeps every invariant |
| `StoryRuns.CreateKeeps` | internal/story/story.go:149-226 | create keeps every invariant |
| `StoryRuns.MoveKeeps` | internal/story/story.go:485-523 | move keeps every invariant |
| `StoryRuns.MoveChainKeeps` | internal/story/story.go:935-1007 | a bulk move keeps every invariant |
| `StoryRuns.UpdateKeeps` | internal/story/story.go:347-481 | update keeps every invariant |
| `StoryRuns.DeleteKeeps` | internal/story/story.go:527-549 | delete keeps every invariant |
| `StoryRuns.RestoreKeeps` | internal/story/story.go:553-584 | restore keeps every invariant |
| `StoryRuns.SettingKeeps` | internal/project/project.go:201-238 | a change of the points option keeps every invariant |
| `StoryRuns.PurgeKeeps` | internal/story/story.go:586-606 | emptying the trash keeps every invariant |
| `Workflow.ReplayAppend` | internal/story/story.go:842-846 | replaying a longer log is replaying its parts in turn |
| `Workflow.VisitedIsWalk` | internal/story/states.go:42-58 | a log that replays visits states only along transitions the workflow allows, ending in the current one |
| `Workflow.AcceptedAfterWork` | internal/story/states.go:42-58 | on any such walk an acceptance follows started, finished, delivered with no planning state in between |
| `States.ScopesPartition` | internal/story/states.go:62-85 | a state belongs to a section's ordering scope exactly when it is not accepted and maps to that section |
| `States.DragIsTransition` | internal/story/states.go:87-101 | a drag that the service accepts is a transition the workflow allows |
| `States.WorkflowSteps` | internal/story/states.go:42-58 | the table of transitions, in words |
| `Blockers.ReachesExactly` | internal/story/tasks.go:169-183 | the depth-bounded search says yes if and only if the target is reachable or some chain from the start runs past the bound |
| `Blockers.ReachesSound` | internal/story/tasks.go:169-183 | a no means there is no path |
| `Blockers.ReplaceKeepsAcyclic` | internal/story/tasks.go:134-165 | replacing a story's links with ones that do not lead back keeps the graph acyclic |
| `StoryInvariants.LinksReplaced` | internal/story/tasks.go:134-165 | the links that `setBlockers` accepts keep the graph acyclic, inside one project and at most twenty per story |
| `StoryBulk.MoveManyOrder` | internal/story/story.go:935-1007 | the moved stories end as one block in the given order right after `prev`, else right before `next`, else on top; all others keep their order in every panel |
| `StoryBulk.MoveManyAccepted` | internal/story/story.go:935-1007 | accepted if and only if the size and target are allowed, all stories exist in one project and may move there, and the neighbour named is shown and not among them |
| `StoryBulk.MoveEachAnswers` | internal/mcpserver/tools.go:513-556 | the answer lists the ids in order, the ones called done are exactly those that moved, and the two counts add up |
| `StoryBulk.CreateEachAnswers` | internal/mcpserver/tools.go:281-319 | one result per item, the ones called done are exactly those created, and the two counts add up |
| `StoryOutcomes.MoveEachExactly` | internal/mcpserver/tools.go:513-556 | item i is reported as moved if and only if its id was not named before, is found in a writable project, belongs to the project of the first id found, may be dragged there, and the drop point is shown; moved rows have their state dragged, all others keep all but their position |
| `StoryOutcomes.AllMove` | internal/mcpserver/tools.go:513-556 | if all may move, all do |
| `StoryCreations.CreateEachExactly` | internal/mcpserver/tools.go:246-319 | item i is created if and only if its points and owner are in order, the items it waits on are earlier ones that were created, and all it waits on may block it; it becomes what was asked for, waiting on exactly those; all else keeps its row but for the position, and its links |
| `StoryCreations.AllCreated` | internal/mcpserver/tools.go:281-319 | items without blockers are all created if each is in order |
| `StoryTools.Tools.MoveStories` | internal/mcpserver/tools.go:513-556 | the loop over `seen`, `prev` and `next` equals the chain of single moves with failures skipped, and answers each item for what it asks of the store before the call |
| `StoryTools.Tools.CreateStories` | internal/mcpserver/tools.go:281-319 | the loop over `created` and `after` equals the chain of single creations with failures skipped, and answers each item and the counts |
| `StoryBulk.MoveEachOrder` | internal/mcpserver/tools.go:513-556 | one transaction per story: the stories that moved form the same block; every other story keeps its place and its row |
| `StoryBulk.CreateEachOrder` | internal/mcpserver/tools.go:281-319 | the stories created form one block in the given order, whatever items fail; nothing else moves |
| `StoryTools.Tools.LinkItem` | internal/mcpserver/tools.go:246-258 | an item's links resolve to the ids of earlier items that were created, or the item fails |
| `StoryViews.Views.List` | internal/story/story.go:261-343 | the default list in display order, each with its section and whether it is blocked |
| `StoryViews.Views.Load` | internal/story/story.go:754-796 | the single-story view: section and whether any live blocker is not accepted |
| `StoryViews.ListsPartition` | internal/story/story.go:267-290 | every live story is on exactly one of the default and the Done list; its section is done exactly on the latter |
| `StoryViews.ListShowsPanels` | internal/story/story.go:261-343 | the default list, section by section and without accepted stories, is the ordering engine's panel |
| `StoryViews.BlockedAgrees` | internal/story/story.go:321-338 | the list and the single-story view agree on what is blocked |
| `Board.RequestNamesIndex` | web/src/lib/board.ts:72-77 | the neighbours the board sends name exactly the drop index to the server |
| `Board.MidpointOrder` | web/src/lib/board.ts:79-103 | an exact midpoint shows the row at its index if and only if the neighbours' positions differ or the ids fall in order |
| `Board.OptimisticMove` | web/src/lib/board.ts:79-103 | for every drop: the server accepts and shows the row at the index asked for, states and other panels agree, and the target panel agrees if and only if its new neighbours are not tied or their ids fall in order |
| `Board.OptimisticMoveDistinct` | web/src/lib/board.ts:79-103 | with distinct positions the optimistic board and the server's agree on every drop |
| `Board.OptimisticState` | web/src/lib/board.ts:105-142 | each button the board offers, whoever presses it: the server accepts if and only if the story does not still need points, and then state, section and every panel are what the board guessed |
| `Board.ActionsOffered` | web/src/lib/board.ts:122-143 | the buttons are the workflow's steps into work, less the way back from finished and the reopening of accepted stories |
| `Board.OrderedSelection` | web/src/lib/board.ts:190-196 | the checked stories in board order |
| `Board.BulkDrop` | web/src/lib/board.ts:199-204 | the server accepts a dropped selection if and only if its size is allowed and the board lets each story go there, and puts it at the drop index as one block |
| `Projection.ProjectBacklog` | web/src/lib/board.ts:154-184 | the loop renders the greedy split for the larger of one and the velocity: a header before each iteration with its number, date and points, then its stories |
| `Projection.PlannedByVelocity` | web/src/lib/board.ts:154-184 | every story once and in order; each iteration holds at most the velocity, at least one point, or exactly one pointed story; a new one opens only with a pointed story that would push the one before, which has points, past that |
| `Projection.RulesDetermine` | web/src/lib/board.ts:154-184 | no other split of the backlog obeys these rules |
| `Projection.RowsReadBack` | web/src/lib/board.ts:154-184 | read back, the rows are the iterations in order, each under a header with its number, its date and exactly the points of the stories below it |
| `Projection.HeaderDay` | web/src/lib/board.ts:166-172 | the nudge keeps a header's date on the first local day of its iteration while boundaries drift by at most two hours |
| `Projection.IterationsAreASplit` | web/src/lib/board.ts:154-184 | every story once and in order; every iteration non-empty and within capacity, or with exactly one pointed story |
| `Projection.PointsConserved` | web/src/lib/board.ts:154-184 | the headers' points add up to the backlog's |
| `Projection.GreedyAhead` | web/src/lib/board.ts:154-184 | the greedy split is never behind any split that obeys the rule |
| `Projection.GreedyIsOptimal` | web/src/lib/board.ts:154-184 | no contiguous split into iterations of at most the velocity (at least one point) or one pointed story uses fewer iterations |
| `OAuth.PruneIsTransparent` | internal/auth/oauth.go:344-352 | at this time or later, authentication, code exchange and refresh answer the same with or without a prune |
| `OAuth.ReplayedTokenEnds` | internal/auth/oauth.go:260-290 | a rotated token that is stored, presented by any client, is refused and ends its grant if and only if that client is the grant's own; otherwise nothing changes |
| `OAuth.ReplayedCodeEnds` | internal/auth/oauth.go:188-212 | a redeemed code that is stored, presented by any client, is refused and ends its grant if and only if that client is registered; otherwise nothing changes |
| `OAuth.PruneForgetsExpiredLeaks` | internal/auth/oauth.go:282-290 | what a prune does change: after one, the grant of a replayed token survives if and only if it has a live token and either the client is not the grant's own, as without the prune, or the replayed token has expired |
| `OAuth.PruneForgetsUsedCodes` | internal/auth/oauth.go:188-212 | after a prune, the grant of a replayed code survives if and only if it has a live token and either the client is not registered, as without the prune, or the code has expired |
| `OAuthExamples.LeakForgotten` | internal/auth/oauth.go:285-290 | a run after which presenting a rotated token ends its grant, and after a prune does not |
| `OAuthExamples.UsedCodeForgotten` | internal/auth/oauth.go:205-212 | a run after which presenting a redeemed code ends its grant, and after a prune does not |
| `OAuthExamples.OtherClientKeepsGrant` | internal/auth/oauth.go:282-284 | a run with two clients, after which the second presents the first one's rotated token and the grant stays |
| `OAuthExamples.UnknownClientKeepsGrant` | internal/auth/oauth.go:188-192 | a run after which an unregistered client presents a redeemed code and the grant stays |
| `OAuth.PrunedGrant` | internal/database/dbgen/oauth.sql.go:118-140 | a prune keeps a grant if and only if it still has an unexpired token |
| `OAuth.ExchangeIssues` | internal/auth/oauth.go:226-246 | a redeemed code leaves its grant with a working pair of tokens and the code used; the prune before it cannot take the grant away |
| `OAuth.RefreshIssues` | internal/auth/oauth.go:291-308 | a rotation leaves its grant with a working new pair and the old token used, the prune after it included |
| `OAuthEffects.ExchangeAnswered` | internal/auth/oauth.go:188-252 | a code is honoured if and only if the client is registered and the code is stored, unused, in time, for this client, verifier and redirect, and its user active; else the error |
| `OAuthEffects.RefreshAnswered` | internal/auth/oauth.go:260-317 | a refresh token rotates if and only if the client is registered and the token is stored, unused, in time, of the client's own grant and its user active; else the error |
| `OAuthEffects.ExchangedPairLasts` | internal/auth/oauth.go:33-36 | after an exchange the access token speaks for its user for exactly 3600 seconds, and the refresh token rotates for its client, and no other, for exactly sixty days |
| `OAuthEffects.RotatedPairLasts` | internal/auth/oauth.go:33-36 | the same after a rotation |
| `OAuthEffects.GrantsEndExactly` | internal/auth/oauth.go:188-417 | over every request: a grant is ended if and only if a code or token of its is replayed by a client heard, something is issued when all its tokens have expired, it is revoked, or its user loses every app; else it stays as it was |
| `OAuthEffects.RegistrationRemoves` | internal/auth/oauth.go:118-135 | a registration removes exactly the clients nobody has connected that were not heard of for thirty days, with their codes |
| `OAuthEffects.TokensTouch` | internal/auth/oauth.go:243-245 | getting tokens counts as being heard of |
| `OAuth.PruneDropsUntokenedGrant` | internal/auth/oauth.go:228-246 | a prune between creating the grant and issuing its tokens would drop it |
| `OAuthService.Service.Register` | internal/auth/oauth.go:95-135 | idle clients without grants go, with their codes; the new one is stored |
| `OAuthService.Service.Approve` | internal/auth/oauth.go:165-183 | expired codes go; the new code is bound to user, client, redirect and challenge |
| `OAuthService.Service.ExchangeCode` | internal/auth/oauth.go:188-254 | the statements in order equal the exchange transaction; reuse is committed, every other refusal changes nothing |
| `OAuthService.Service.Refresh` | internal/auth/oauth.go:260-317 | the statements in order equal the refresh transaction; reuse is committed, every other refusal changes nothing |
| `OAuthService.Service.IssuePair` | internal/auth/oauth.go:319-340 | one access and one refresh token for the grant with their lifetimes |
| `OAuthService.Service.PruneTables` | internal/auth/oauth.go:344-352 | expired codes, expired tokens, then empty grants |
| `OAuthService.Service.AuthenticateAccessToken` | internal/auth/oauth.go:357-375 | the user of an unexpired access token whose grant exists and whose user is active, else nobody |
| `OAuthService.Service.Disconnect` | internal/auth/oauth.go:395-404 | ends the user's own grant; anyone else's is not found |
| `OAuthService.Service.Revoke` | internal/auth/oauth.go:408-417 | either token of a grant ends the whole grant; an unknown one is no error |
| `OAuthService.Service.ResetPassword` | internal/auth/auth.go:153-177 | a new password ends every grant of the user |
| `OAuthService.Service.UpdateUser` | internal/user/user.go:110-155 | deactivation ends every grant of the user; reactivation brings none back |
| `OAuthRuns.RunKeepsInvariants` | internal/auth/oauth.go:95-417 | every run keeps the foreign keys, ties every stored token to the approval it was issued under, and leaves each grant at most one unused refresh token |
| `OAuthRuns.SingleUse` | internal/auth/oauth.go:188-308 | over every run each authorization code and each refresh token redeems at most once |
| `OAuthRuns.ReplayedCodeEndsApproval` | internal/auth/oauth.go:188-212 | over every run and for any client: presenting a redeemed code again is refused, and ends the very approval its redemption made, whatever row ids were reused, if and only if the code is still stored and the client registered; otherwise nothing changes |
| `OAuthRuns.ReplayedCodeKillsSecrets` | internal/auth/oauth.go:205-211 | and from then on no secret of that approval works, rotated ones included |
| `OAuthRuns.RedemptionIssues` | internal/auth/oauth.go:228-246 | the pair a redemption hands out belongs to the approval it makes |
| `OAuthRuns.RotationIssues` | internal/auth/oauth.go:291-308 | the pair a rotation hands out belongs to the approval of the token presented |
| `OAuthRuns.ReplayedTokenEndsApproval` | internal/auth/oauth.go:260-290 | over every run and for any client: presenting a rotated token again is refused, and ends the approval it was issued under if and only if the token is still stored and the client is its grant's own; otherwise nothing changes |
| `OAuthRuns.RevocationEndsGrants` | internal/auth/oauth.go:395-417 | disconnecting, revoking, a password reset and a deactivation end the approvals they are about |
| `OAuthRuns.RemovedForGood` | internal/auth/oauth.go:188-375 | once an approval's grant is gone, no access or refresh secret ever issued under it is accepted again, reactivation included |
| `OAuthConsent.CodeApproved` | internal/auth/oauth.go:165-215 | over every run, a stored code carries the user, client, redirect, challenge and expiry of an earlier approval |
| `OAuthConsent.AccessNeedsConsent` | internal/auth/oauth.go:165-375 | over every run, a token speaks for a user only if that user approved a client and the client redeemed that code in time and with its verifier; the token was issued under the approval this made |
| `OAuthConsent.RotationNeedsConsent` | internal/auth/oauth.go:260-317 | over every run, a token rotates only for the client a still active user consented to |
| `OAuthLifetimes.AccessTokenWorks` | internal/auth/oauth.go:188-375 | over every run: an access token is accepted, at any time no request was later than, if and only if it is less than an hour old and its approval not over, and speaks for the user it was issued for |
| `OAuthLifetimes.AccessTokenStops` | internal/auth/oauth.go:357-366 | over every run and whatever the clocks read: an hour after it was issued it is not accepted |
| `OAuthLifetimes.RefreshTokenRotates` | internal/auth/oauth.go:260-317 | over every run: a refresh token rotates if and only if its own client presents it for the first time, within sixty days, and its approval is not over |
| `OAuthLifetimes.CodeRedeems` | internal/auth/oauth.go:165-252 | over every run: a code redeems if and only if its own client presents it for the first time, with its verifier and redirect, within sixty seconds, for an active user, and was not removed as idle meanwhile |
| `OAuthLifetimes.OwnersAreActive` | internal/auth/oauth.go:188-417 | over every run, the users of all grants are active |
| `Hub.RunKeepsFeed` | internal/events/hub.go:55-99 | every interleaving keeps: registered exactly while open, at most sixteen queued, no empty inner map, `Dropped` counting the channels that fell behind |
| `Hub.StepKeeps` | internal/events/hub.go:55-99 | one subscribe, cancel, publish or receive keeps it |
| `Hub.NothingLostSilently` | internal/events/hub.go:55-99 | received plus queued is every event published for the project since the subscription while the channel is open; once closed, exactly everything up to the closing step, which was its own cancel or a publish that found sixteen unread |
| `Hub.ChannelStep` | internal/events/hub.go:55-99 | a closed channel never reopens and gets no more events; only its reader takes from it |
| `Hub.OfferOne` | internal/events/hub.go:83-99 | each subscriber is offered to once on its own channel, so the order the map yields does not matter |
| `Hub.Broker.Subscribe` | internal/events/hub.go:55-66 | a fresh id and an empty open channel, registered under its project |
| `Hub.Broker.Cancel` | internal/events/hub.go:68-79 | acts once; closes only an open channel; drops an empty inner map |
| `Hub.Broker.Publish` | internal/events/hub.go:83-99 | in any order of the map: queued where it fits, else dropped; it never sends to or closes a closed channel |
| `Hub.Broker.Subscribers` | internal/events/hub.go:102-113 | the number of open streams, for a project or in all |
| `Live.AnnouncedIdsArrive` | internal/events/hub.go:28-36 | the ids a hub event is made for are the ids the board reads from it |
| `Live.LinkIsExact` | web/src/lib/live.ts:34-74 | while the link is open, pending is exactly the ids foreign events mentioned since the last firing, and the timer is armed exactly when such an event or a reconnect came since; a closed link has no timer |
| `Live.EventsAreCovered` | web/src/lib/live.ts:39-74 | every foreign event and every reconnect is answered by an onChange with its ids, or the timer is armed, unless the link was closed |
| `Live.QuietBeforeFiring` | web/src/lib/live.ts:39-48 | an onChange comes at least the debounce after everything that called for it |
| `Live.Connection.Schedule` | web/src/lib/live.ts:39-48 | the loop adds the real ids and restarts the timer |
| `Live.Connection.OnOpen` | web/src/lib/live.ts:52-58 | only a reconnect schedules a refetch |
| `Live.Connection.OnEvent` | web/src/lib/live.ts:63-77 | one's own events are ignored, all others schedule |
| `Live.Connection.Fire` | web/src/lib/live.ts:42-47 | reports and clears what was pending |
| `Iteration.OriginIsClosest` | internal/iteration/iteration.go:43-49 | the origin is the closest start weekday on or before the anchor's day |
| `Iteration.NumbersTile` | internal/iteration/iteration.go:53-58 | each iteration is non-empty and ends exactly where the next begins |
| `Iteration.OnlyOne` | internal/iteration/iteration.go:53-58 | no instant lies in two iterations |
| `Iteration.Covering` | internal/iteration/iteration.go:62-79 | every instant from the origin on lies in one |
| `Iteration.NumberAtWithin` | internal/iteration/iteration.go:53-79 | an instant is between two boundaries exactly when its iteration is |
| `Iteration.SpansItsDays` | internal/iteration/iteration.go:36-60 | every iteration spans exactly the days the project sets, a week if none, from the local midnight of its first day |
| `Iteration.DayIteration` | internal/iteration/iteration.go:45-79 | the number of the iteration a local day is in, by counting days from the origin |
| `Iteration.AnchorInFirst` | internal/iteration/iteration.go:13-14 | the anchor is inside iteration 1 if and only if the length reaches it; every length a project may have does |
| `Iteration.AnchorAfterFirst` | internal/iteration/iteration.go:13-14 | one-day iterations from Mondays with the anchor on a Sunday: iteration 1 is over before the anchor |
| `Iteration.At` | internal/iteration/iteration.go:62-79 | terminates with the unique iteration containing the instant, iteration 1 before the origin, after as many corrections as the estimate was off |
| `Iteration.EstimateWithinOne` | internal/iteration/iteration.go:67-69 | while drift from 24-hour days stays under one iteration, the estimate is off by at most one |
| `Iteration.Range` | internal/iteration/iteration.go:82-91 | the iterations from max(1, from) to `to`, in order |
| `Velocity.Conserved` | internal/velocity/velocity.go:93-116 | over any range of iterations, points and story counts add up to those of the live stories accepted between its ends, each once |
| `Velocity.Buckets` | internal/velocity/velocity.go:121-141 | the bucket of each iteration in range is that iteration's points and stories |
| `Velocity.Iterations` | internal/velocity/velocity.go:93-116 | the full history, iteration by iteration |
| `Velocity.Velocity` | internal/velocity/velocity.go:61-90 | the window shows the same points per iteration as the full history; its total is that of the stories accepted between its ends; ten while nothing is completed |
| `Velocity.HistoryConserves` | internal/velocity/velocity.go:93-116 | the points and stories of the history shown add up to those of the live stories accepted from iteration 1 to the end of the current one |
| `Velocity.HistoryIs` | internal/velocity/velocity.go:93-116 | each entry counts the live stories accepted in its iteration, and their points |
| `Velocity.WindowIsLast` | internal/velocity/velocity.go:61-90 | the report covers the last completed iterations, as many as the window asks for and there are, each with the points accepted in it, averaged; with none, ten |
| `Velocity.SumOfOne` | internal/velocity/velocity.go:121-141 | a story counts with its estimate, or not at all |
| `Velocity.VelocityIsFloor` | internal/velocity/velocity.go:86-88 | with no negative estimate the velocity is the mean rounded down |
| `Velocity.ReachableVelocityIsFloor` | internal/velocity/velocity.go:86-88 | in every reachable store the velocity is the mean rounded down |
| `Limiter.PurgeIsInvisible` | internal/auth/limiter.go:28-46 | with a clock that does not run backwards, purging never changes an answer |
| `Limiter.AllowedExactly` | internal/auth/limiter.go:28-46 | an attempt gets through if and only if it opens a window or is among the first `max` since the one that did |
| `Limiter.AtMostMaxPerWindow` | internal/auth/limiter.go:28-46 | from the attempt that opens a window until it resets, at most `max` get through, or one where `max` is below 1 |
| `Limiter.FewerThanTwice` | internal/auth/limiter.go:28-46 | in any closed interval as long as the window, at most twice `max` less one get through, or one where `max` is below 1 |
| `Limiter.BoundIsReached` | internal/auth/limiter.go:28-46 | for every policy some calls reach that bound |
| `Limiter.Gate.Allow` | internal/auth/limiter.go:28-46 | the purge loop and the counter update equal one attempt on the purged table |
| `Slug.CollapsedRun` | internal/project/project.go:319-341 | letters and digits side by side stay as they are |
| `Slug.CollapsedGap` | internal/project/project.go:319-341 | anything else between two parts becomes one dash, at an end nothing |
| `Slug.CollapsedShape` | internal/project/project.go:319-341 | the result is lower-case words with single dashes between them, and keeps every letter and digit in order |
| `Slug.SluggedShape` | internal/project/project.go:315-341 | a slug is never empty and never all digits |
| `Slug.SlugKeepsWords` | internal/project/project.go:315-341 | a slug keeps every letter and digit of the name, lower-cased and in order, after `project` at most |
| `Slug.SlugifyIdempotent` | internal/project/project.go:315-341 | slugifying a slug changes nothing |
| `Slug.Projects.Slugify` | internal/project/project.go:319-341 | the loop over the builder and the dash flag computes the slug |
| `Slug.Projects.UniqueSlug` | internal/project/project.go:343-356 | ends within one probe more than there are projects, with the first candidate nobody has |
| `Slug.CandidateNotNumeric` | internal/project/project.go:315-356 | no candidate reads as an integer |
| `Slug.ParseDecimal` | internal/project/project.go:159-160 | an id written in decimal reads back as itself exactly when it fits 64 bits |
| `Slug.ParseSigned` | internal/project/project.go:159-165 | a signed decimal reads as that many above or below zero within 64 bits |
| `Slug.Projects.Resolve` | internal/project/project.go:159-176 | by id if the reference is the number of a project, else by slug |
| `Slug.SlugResolves` | internal/project/project.go:159-176 | a slug finds exactly its project if and only if it does not read as another project's id |
| `Slug.NewProjectResolves` | internal/project/project.go:109-176 | a new project's slug finds exactly that project, as long as slugs stay unique |
| `Slug.IdResolves` | internal/project/project.go:159-176 | an id written out finds its project |
| `Checklist.Checklists.DeleteTask` | internal/story/tasks.go:124-130 | removes the task and names its story; an unknown one is not found |
| `Checklist.Checklists.UpdateTask` | internal/story/tasks.go:76-121 | the renumbering loop writes the list with the task taken out and put back at the clamped index, numbered 1 to n |
| `Checklist.Checklists.AddTask` | internal/story/tasks.go:49-72 | a new task goes to the end of its story's list |
| `Checklist.TaskMoves` | internal/story/tasks.go:76-121 | after a reorder the list shown is remove-then-insert, positions are 1 to n, and no other story's list changes |
| `Checklist.TaskTicked` | internal/story/tasks.go:76-121 | an update ticks its task as asked, changes no other tick and no task's story, and without an index no position |

## Left out

Contracts stated for less than the whole:

- StoryService.Service.MoveMany: the loop calls one move per story where the source repeats the same statements inline; the checks it makes once per request come first, as in the source.
- StoryService.Service.Create: the key of the new row is a parameter instead of the database's choice; title and labels, with their checks, are not modelled.
- StoryService.Service.Update: titles, descriptions and labels, their edits and their refusals, are not modelled.
- StoryService.Service.EditFields: the same, for the part that edits the row.
- StoryService.Service.UpdateProject: of a project's settings only the points option is modelled.
- StoryTools.Tools.MoveStories: a failed item says that it failed, not why.
- StoryTools.Tools.CreateStories: a failed item says that it failed, not why.
- StoryViews.Views.List: labels, comment and task counts and the list of blockers are not part of the view.
- StoryViews.Views.Load: the same.
- OAuthService.Service.Register: the name and the redirect URIs, with their checks, are not modelled.
- OAuthService.Service.ExchangeCode: the client is looked up in the same step as the transaction; a client removed between the two is not modelled. PKCE is an equality of challenge and verifier.
- OAuthService.Service.ResetPassword: the length of the password, its hash and the user's sessions are not modelled.
- OAuthService.Service.UpdateUser: the display name, the administrator flag and the refusal to lose the last administrator are not modelled.
- OAuthService.Service.AuthenticateAccessToken: the time a grant was last used, kept for display, is not recorded.
- Hub.Broker.Publish: channels are rows of a table keyed by subscriber instead of separate heap objects; the counter for ids does not wrap around.
- Velocity.Buckets: the accepted stories are visited in an arbitrary order, not by acceptance time; the sums do not depend on it.
- Velocity.Velocity: the mean is an exact real, not a floating-point number.
- Iteration.OriginIsClosest: speaks of day numbers. The source recomputes each boundary from the origin as an instant; where a local midnight is skipped west of Greenwich, that instant can read as 23:00 of the day before, and iterations then start a day early.
- Iteration.At: instants are unbounded integers; the difference of two instants does not saturate at 292 years. The result does not depend on it, only the first guess does.
- Board.OptimisticMove: midpoints are exact reals, so ties caused by floating-point rounding are not modelled; the board is assumed to show the whole section, as a filtered one does not.
- Board.OptimisticState: the board's array of stories is a map from id to card, so the copying of unchanged entries is not modelled.
- Limiter.FewerThanTwice: the window's length is not negative.
- Checklist.Checklists.UpdateTask: the edit of a task's text and its check are not modelled.
- Checklist.Checklists.AddTask: whether the story is live is a parameter; the text of a task is not modelled.
- Live.Connection.OnOpen: the connection status shown to the user is not modelled.
- Slug.Projects.UniqueSlug: the length of a slug is unbounded.

Parts of the repository that are not modelled:

- The bulk update tool: one update after the other, each as modelled.
- Titles, descriptions, labels, comments, stars, saved filters, members and API tokens: fields that no decision modelled here depends on.
- Project deletion, archiving and the validation of project settings other than the points option.
- Epic progress: the code keeps pointers into a slice it is still appending to, so a statement about the sums would not describe it.
- The flag and the counter that report rebalances, as exact counts: creation discards the flag and rolled-back transactions still count.
- `Blocked` in search, Done and trash listings, and the list of blockers shown: the code differs between its views there.
- Registration of redirect URIs, their matching, sessions and passwords.
- HTTP, JSON, server-sent events, the tool protocol, Svelte components, drag handling, configuration and migrations.
- Database failures. The blocker search answers no when a read fails, so acyclicity rests on reads succeeding.

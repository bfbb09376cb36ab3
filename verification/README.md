# couchcast: the live room, the ingest leases and four kernels

A Dafny model of the parts of couchcast in which many things interleave, with proofs of what they keep.

**The live room** (`internal/room` over `internal/repository/queue.go`). `RoomSpec` and `RoomCommands` give one room
as a state machine: its fields, the stored rows behind it, and one function for the effect of every command, timer
callback and outside event (ingest progress, deletions by an administrator, purges, shutdown, restart). `Room` is the
same room as an object whose methods update fields in place, over the `Repo` of `Repository`; each method is proved to
have exactly the effect of its step, loops included, and every handler to keep `Valid()`: the queue in memory is what
the store lists, with the current item in it. Runs are sequences of steps at given times, each with its save of
the playback columns succeeding or failing. What every run keeps is proved in one module per concern:

| module | what is kept |
|---|---|
| `RoomCache` | the queue in memory is what the store lists; vote counts and flags are the stored votes |
| `RoomShape` | the current item is in the queue, the history is bounded, playing means something is playing |
| `RoomSaved` | crash consistency of the playback columns |
| `RoomModes` | playing, waiting and counting down exclude each other, and only ready media plays |
| `RoomAdvance` | the timer for the end of an item is armed, never early and never late |
| `RoomVotes` | vote mode keeps the waiting items in vote order |
| `RoomTurns` | the fair queue keeps the waiting items in turns |
| `RoomNext` | which item takes over, and that rows are conserved |
| `RoomDrift` | how far the clock is from the true integral of speed over playing time |
| `RoomInside` | the position of the clock lies inside the current item |
| `RoomSwitch` | whatever becomes current starts at its top, and plays exactly when it is ready |
| `RoomPlayback` | what each playback command does to the position that viewers see |
| `RoomQueue` | what each queue command does to the order that viewers see |
| `RoomLedger` | which rows and votes a step may make, delete or change |
| `RoomRuns` | all of it at once, from a new room on |

`Order`, `FairTurns` and `Moves` hold the order rules, `FairPattern` what being in turns means for the order of the
adders, `Clock` the arithmetic of the playback clock, `Store` the rows and the statements on them.

**The ingest leases** (`internal/jobs`, `internal/ingest/worker.go`, `internal/mediastore/attempts.go`). `Jobs` has the
job rows and the queue object that changes them; `IngestProtocol` interleaves any number of attempts, recoveries and
janitors step by step; `PackageSafety` and `AttemptFence` prove what every interleaving keeps, `IngestOrder` how a package
that is published came about; `IngestWorker` ties the in-place code to the protocol's steps; `Watchdog` times the
renewal loop.

**Kernels.** `ClientClock` is the client's estimate of the server clock, `Netguard` the address literals and the public
address check, `WebVtt` the subtitle cues, `WebVttWords` what becomes of their words, `WebVttFile` the whole file and
`WebVttTwice` what normalising it again does;
`Text` has the numbers and splitting that these share.

Eight properties one might expect are false of the code. Each is stated with the condition under which it holds, in both
directions, beside a concrete run or input that breaks it:

- Playing without a current item: a restart over columns whose row was deleted (`RoomShape.StepPlaysSomething`,
  `RoomShape.OrphanRun`). The foreign key empties only the reference and leaves `playing` set (`db/schema.sql:297-299`).
- Losing the saved position: a deletion behind dangling columns (`RoomSaved.StepConsistent`, `RoomSaved.LosingRun`).
- Overlapping modes: the restart of an empty room skips `setCurrentLocked`, so a pending countdown or wait survives it
  (`RoomModes.StepModes`, `RoomModes.ModesBreak`). The comment at `internal/room/playback.go:94-95` says switching
  starts playing when ready; the restart at `internal/room/playback.go:211-218` deliberately does not.
- The vote order after a reload of an unsaved room, which may find another item current (`RoomVotes.StepVoting`,
  `RoomVotes.UnsavedLoadBreaksOrder`).
- Ready media that stays ready: two live jobs for one media undo it (`AttemptFence.RunReady`,
  `AttemptFence.SecondJobUndoesReady`), and `Service.Retry` can create the second
  (`internal/ingest/ingest.go:255-264`).
- A position inside the item: a step ends it exactly when it learns of a length below the position, as after a seek
  made while the length was unknown (`RoomInside.StepInside`, `RoomInside.LengthComesLate`). An announced media row, an
  added link to the current media, and rows read again after a deletion can bring such a length.
- Turns that last: `RoomTurns.StepTurns` says of every command, callback and event when it leaves the queue in turns
  (`RoomTurns.RestartBreaksTurns`, `RoomTurns.RemovalBreaksTurns`).
- A normal form of subtitle files: normalising twice changes a file that ends in white space or keeps a CRLF pair after
  the first time (`WebVttTwice.FileNormalizedTwice`, `WebVttTwice.BlankChangesTwice`, `WebVttTwice.PairsChangeTwice`).

Modelling decisions. Times are integer milliseconds and speeds integer quarters, so the products before truncation are
exact, as they are in the program for its six speeds. Identifiers are fresh integers; ranks are the numbers the padded
strings spell, and stay below 10^8. A step reads the clock once. What the database, the clock, randomness and the
network answer are parameters: the listing and history that a re-read returns, the playing order that a restart uses,
the shuffle, the fresh id and creation time of a row, and whether a save succeeds. `Enabled` states what is assumed of
them: queries return what is stored (the settings too, which only `SettingsSet` writes), ids are fresh, creation times
and the clock do not go back, a callback runs no earlier than its timer is due, and ready media stays as it is. Queue
writes succeed; a transaction that fails leaves everything as it was. Client times are reals, exact as the client's
halves of milliseconds are.

## Model

| member | source | states |
|---|---|---|
| `RoomRuns.RunAllWell` | internal/room/room.go:149-197 | from a good state, as long as saves succeed and loop is off, every invariant below (cache, current item, modes, saved clock, timers, vote order) holds after every run |
| `RoomRuns.NewRoomIsWell` | internal/room/room.go:200-244 | a room opened over an empty store is such a good state, whatever its settings |
| `RoomRuns.StepExact` | internal/room/playback.go:227-252 | while saves succeed the stored columns are the clock in memory after every step, deletions and reloads included |
| `RoomRuns.ExactLosesNothing` | internal/room/room.go:232-236 | with the columns exact, no step can lose the clock and no load finds an orphan |
| `RoomCache.StepCached` | internal/room/queue.go:28-91 | every command, callback and outside event keeps the in-memory queue equal to what ListQueue returns, stored ranks of queued rows distinct, each vote count and each user's vote flags equal to the stored vote rows |
| `RoomShape.RunCached` | internal/room/queue.go:28-91 | the same over any run, with the current item always in the queue and at most 20 items of history, save failures, loads and loop restarts included |
| `RoomCache.ListingIsUnique` | internal/repository/queue.go:17-25 | with distinct ranks the query has one possible answer, so re-reading a cached queue changes nothing |
| `RoomCache.RenumberMirrors` | internal/room/order.go:145-164 | writing ranks 1, 2, 3, ... for any permutation of the queue to the store and to memory keeps the two equal |
| `RoomCache.InsertMirrors` | internal/repository/queue.go:105-120 | a row inserted at the top rank plus one and the item appended in memory keep the two equal |
| `RoomCache.InsertLinksMirrors` | internal/room/queue.go:285-323 | a batch of inserted rows and the appended batch keep the two equal |
| `RoomCache.ToggledCached` | internal/room/votes.go:119-137 | toggling a vote moves the stored row, the item's count and the user's flag together |
| `RoomCache.LapCached` | internal/room/playback.go:192-205 | re-queuing the history and re-reading it gives the queue the store lists, in playing order or vote order |
| `RoomCache.NextCached` | internal/room/playback.go:169-225 | an advance of any kind keeps the cache |
| `RoomCache.MediaDeletedCached` | internal/room/queue.go:652-670 | after rows are deleted outside the room the re-read state is a cache again |
| `RoomShape.StepPlaced` | internal/room/playback.go:94-109 | every step leaves the current item nil or in the queue and the history within 20 entries |
| `RoomShape.StepPlaysSomething` | internal/room/room.go:232-239 | playing without a current item arises exactly when a load finds columns that say playing while the row they referred to is gone |
| `RoomShape.RunShape` | internal/room/playback.go:94-120 | over any run that loads no such store, playing implies a current item |
| `RoomShape.OnePlayingIsReached` | internal/room/queue.go:198-201 | the room that this run and the one that loses the clock start from is what a new room comes to when its first link is added, fetched and announced |
| `RoomShape.OrphanRun` | internal/room/room.go:232-239 | three steps that do produce it: a failed save, clearing the history, a restart (the foreign key empties only the reference, db/schema.sql:297-299) |
| `RoomSaved.StepConsistent` | internal/room/playback.go:227-252 | after every step, with the save failing or not, either unsaved is set or reloading gives the clock in memory (but for the version), if and only if the step did not delete the row that dangling stored columns still name |
| `RoomSaved.RunConsistent` | internal/room/playback.go:227-252 | the same after any run in which no step deletes such a row |
| `RoomSaved.StepRecalled` | internal/room/room.go:232-236 | every step, those deletions included, leaves a room that knows its clock is unsaved or whose reload finds the same item current |
| `RoomSaved.DroppedComesBack` | internal/room/room.go:376-393 | a room that a tick reports idle comes back with the same item and the same position at every later time |
| `RoomSaved.DeletingConsistent` | internal/repository/queue.go:81-127 | which deletions break consistency, in both directions |
| `RoomSaved.LosingRun` | internal/room/playback.go:227-252 | the exception is real: failed save, restart, clearing the history |
| `RoomModes.StepModes` | internal/room/playback.go:94-120 | playing implies ready media; playing, waiting and counting down exclude each other; what is pending is ready: kept by a step if and only if it neither loads an orphan nor restarts, loop on and vote mode off, an empty room whose queue runs out while something is pending and whose first played item is not ready; the condition is about the room before the step |
| `RoomModes.RunSound` | internal/room/presence.go:233-307 | the same after any run without such a step |
| `RoomModes.LoopOffKeepsModes` | internal/room/playback.go:192-222 | with loop off no restart breaks the modes, so only the load of an orphan can |
| `RoomModes.ModesBreak` | internal/room/playback.go:211-218 | with loop on they do break: restart, ingest, and the room plays while it counts down |
| `RoomModes.NextModes` | internal/room/playback.go:169-225 | an advance keeps the modes if and only if it is not that restart |
| `RoomModes.RunsOutExactly` | internal/room/playback.go:178-205 | an advance restarts the queue exactly when loop is on and everything beside the current item has failed |
| `RoomModes.VoteLapHead` | internal/room/playback.go:201-218 | in vote mode the restart leads with the finished item, which is ready whenever something is pending, so the modes cannot break |
| `RoomModes.MediaUpdatedModes` | internal/room/queue.go:597-614 | media becoming ready starts the current item without overlapping a wait or a countdown |
| `RoomModes.SyncedFrom` | internal/room/playback.go:242-252 | queue rows refer to stored media, ready media in the room is stored as it is, and the saved columns play a ready item |
| `RoomModes.LoadSound` | internal/room/room.go:199-244 | a loaded room is in a sound mode if and only if the store is no orphan |
| `RoomAdvance.StepTimely` | internal/room/playback.go:68-80 | while an item of known length plays, an advance timer for this item and clock version is armed; no timer is from a later version; those for this version are due only when the clock stands at the end |
| `RoomAdvance.RunTimely` | internal/room/timers.go:10-20 | the same over any run that keeps the modes, stopped and replaced timers included |
| `RoomAdvance.EndedActsAtTheEnd` | internal/room/playback.go:82-92 | an advance callback changes nothing, or it is for this item and version and the position equals the duration |
| `RoomAdvance.AdvanceIsArmed` | internal/room/playback.go:68-92 | from its due time on, the armed timer's callback is enabled and advances the room |
| `RoomAdvance.StepArmsInTime` | internal/room/playback.go:68-80 | every timer that a step arms is due half a second after the remaining time of the item at its speed, to the millisecond |
| `RoomAdvance.KeepsLength` | internal/room/playback.go:70-80 | what plays keeps its length across every step that leaves the clock alone |
| `RoomVotes.RunVotes` | internal/room/order.go:40-50 | in vote mode, after any run of adds, replays, votes, skips, jumps, removals, setting changes, failed saves and reloads whose loads fit, the waiting items are sorted by votes, then by age |
| `RoomVotes.SavedLoadsFit` | internal/room/room.go:232-236 | every load of a run that loads no unsaved room fits, whatever saves fail and whatever is deleted in between |
| `RoomVotes.StepVoting` | internal/room/queue.go:325-329 | a step keeps that order, although adding and removing never sort, if and only if it is no load whose clock names another item beside which the one that was current does not fit |
| `RoomVotes.FitsExactly` | internal/room/room.go:232-236 | fitting is about that one item: it agrees in rank and votes with each item that waits beside it |
| `RoomVotes.InsertLinksInOrder` | internal/room/queue.go:325-329 | a batch appended at the end is already where the vote order puts it |
| `RoomVotes.LapLeads` | internal/room/playback.go:201-208 | a lap in vote mode leads with the item that just finished, the rest in vote order |
| `RoomVotes.UnsavedLoadBreaksOrder` | internal/room/room.go:232-236 | a run of one load over an unsaved clock does leave the queue out of order |
| `RoomNext.NextTakesTheFirst` | internal/room/playback.go:168-191 | without a restart the first item in rotation order whose media has not failed becomes current, exactly the outgoing item and the failed ones before it go to the history (stored and in memory), and the rest follow in their old order |
| `RoomSwitch.StepSwitches` | internal/room/playback.go:96-120 | after any enabled step other than a load, what is current was so before, or has just started (at its top, at normal speed, playing if and only if its media row is ready, with no wait, countdown or skip vote left), or nothing is and the clock stopped, or an empty room restarted and stands at the top |
| `RoomSwitch.NextStarts` | internal/room/playback.go:169-225 | an advance starts the item that takes over like that, and stops at the top exactly when the queue restarts with nobody there |
| `RoomSwitch.JumpStarts` | internal/room/playback.go:395-415 | a jump starts the queued item it names, be it current already |
| `RoomSwitch.AddingStarts` | internal/room/queue.go:124-204 | the first new item of an add, bulk add or replay starts if and only if nothing was current; else the clock is left alone |
| `RoomSwitch.MediaDeletedStarts` | internal/room/queue.go:654-670 | a current item that a re-read no longer finds gives way to the head of the queue, which starts; one that it finds plays on |
| `RoomLedger.StepLedger` | internal/repository/queue.go:81-127 | every enabled step other than a vote makes and deletes exactly the rows it is meant to, keeps media, adder and age of all others, and keeps exactly the votes of the rows that stay |
| `RoomLedger.AddingLedger` | internal/repository/queue.go:106-120 | an addition makes exactly the unplayed rows of the links it takes, with their media, adder and creation time |
| `RoomLedger.VoteToggles` | internal/room/votes.go:102-142 | a vote for a waiting item in vote mode toggles this one vote; any other is refused |
| `RoomNext.NextConserves` | internal/room/queue.go:73-91 | no row is lost or made: the stored history gains exactly those items, all other rows are unchanged |
| `RoomNext.LapRequeuesAll` | internal/repository/queue.go:63-78 | a restart puts every stored row of the room back into the queue and empties the history |
| `RoomNext.SkipFailedRotates` | internal/room/playback.go:178-191 | the skip loop ends and removes exactly the leading failed items of the rotation |
| `RoomDrift.DriftAfterCut` | internal/room/clock.go:25-43 | after every seek, new item or start from the top, until the next, the clock is never ahead of the true integral of speed over playing time and behind it by less than k + 1 ms after k folds |
| `RoomDrift.DriftBound` | internal/room/clock.go:25-43 | the same for any run without cuts from a clock whose position is one of the item, a reloaded clock included |
| `RoomDrift.StepLands` | internal/room/clock.go:85-92 | whatever a step does to the clock, loads aside, it holds the position the clock showed or one inside the item that is current then |
| `RoomDrift.MeterStarts` | internal/room/clock.go:25-43 | a clock can be metered if and only if its position is not negative and not past a known length |
| `RoomInside.StepInside` | internal/room/queue.go:597-614 | from a position inside the current item, every enabled step other than a load leaves the position inside the item that is current then, if and only if it does not learn of a length below the position: a media row announced for the current item, a link to its media added, or its stored row read again after a deletion, with a known length that the position before the step is past |
| `RoomInside.RunInside` | internal/room/clock.go:25-30 | the same after any run without loads that keeps the modes and in which no step learns of such a length |
| `RoomInside.LengthComesLate` | internal/room/clock.go:25-30 | such a step is real: a new room, one link, a seek far ahead, and the length becomes known while the clock is paused outside the item |
| `RoomDrift.StepFolds` | internal/room/playback.go:136-161 | every step that is no cut leaves the clock alone or starts it afresh at the position it showed |
| `RoomDrift.RunInStep` | internal/room/presence.go:262-307 | the meter of a run stays in step through pauses, waits, resumes and changes of speed |
| `Clock.FiresAtTheEnd` | internal/room/clock.go:45-49 | a timer armed at any time for what remains plus the margin finds the clock at the end, despite both truncations |
| `Clock.MarginIsNeeded` | internal/room/playback.go:79-79 | without the margin a timer can fire a millisecond early |
| `Clock.TracksBounds` | internal/room/clock.go:25-35 | the error of a clock that lost k truncations |
| `Clock.FoldTracks` | internal/room/clock.go:37-43 | folding costs one more truncation |
| `Clock.TimeTracks` | internal/room/clock.go:25-35 | time passing adds speed times time while playing |
| `Clock.RestoredIsSaved` | internal/room/clock.go:63-74 | a clock restored from its saved columns shows the same position at every time |
| `Clock.ClampSeek` | internal/room/clock.go:85-92 | a seek target ends inside the media, and is unchanged when it was |
| `FairTurns.FairOrderPermutes` | internal/room/order.go:52-92 | taking turns permutes the queue, current item first |
| `FairTurns.FairOrderIsFair` | internal/room/order.go:52-92 | each person's videos keep their order, and in no prefix of the waiting part has anybody two turns more than somebody who still has videos left |
| `FairTurns.FairOrderIsIdempotent` | internal/room/order.go:52-92 | taking turns twice is taking turns once |
| `FairTurns.FairOrderSurvivesAdvance` | internal/room/order.go:133-143 | the result is still in turns when the head of the waiting items becomes current |
| `RoomTurns.RunTurns` | internal/room/order.go:52-92 | with the fair queue on, after any run whose steps all keep the turns, the queue is in turns: nobody who waits has two turns more than somebody with videos left |
| `RoomTurns.RunStaysInTurns` | internal/room/order.go:52-92 | a run that starts in turns is in turns throughout if and only if each of its steps keeps the turns as the next row says |
| `RoomTurns.StepTurns` | internal/room/fair.go:7-12 | every enabled step leaves a queue that is in turns in turns if and only if, with the fair queue on, it is none of these: a jump ahead; a removal, an addition, a reload or a restart against the rows below; a deletion of media whose listing is not in the pattern of turns for the item that is current then |
| `RoomTurns.RemoveTurns` | internal/room/queue.go:504-533 | removing a waiting item keeps the turns if and only if it is the last of its adder, or their next one follows at once, or it is their first, nobody with an item before it has two, and the adder of the current item has nothing waiting |
| `RoomTurns.AddingTurns` | internal/room/queue.go:124-204 | an add, bulk add or replay keeps the turns if and only if something is current, the queue was empty, nothing is added, or at most two items are queued then: in a stopped room the new item starts and not the one that leads |
| `RoomTurns.LoadTurns` | internal/room/room.go:232-239 | a reload keeps the turns if and only if it finds the same item current, none, or the one that leads, or at most two items are queued |
| `RoomTurns.AnyNextTurns` | internal/room/playback.go:169-225 | an advance keeps the turns if and only if it does not restart from the history or the history was played in turns |
| `RoomTurns.InTurnsExactly` | internal/room/order.go:52-92 | a queue is in turns if and only if fewer than two items wait, or the current item leads and the order of adders behind it is the pattern of turns |
| `FairPattern.TurnsPattern` | internal/room/order.go:64-92 | taking turns leaves the waiting items as they are if and only if earlier turns come before later ones, each round keeps the order of first items, and the adder of the current item comes last in it |
| `FairPattern.LosesExactly` | internal/room/order.go:64-92 | such an order of adders is one without its i-th entry if and only if that entry may be lost as above |
| `FairPattern.GainsHead` | internal/room/order.go:64-92 | it is one for a stopped room with the current item's adder in front |
| `RoomTurns.NextTurns` | internal/room/playback.go:169-191 | an advance without a restart keeps the turns, however many failed items it skips |
| `RoomTurns.JumpTurns` | internal/room/playback.go:395-415 | a jump keeps the turns if and only if its target is next anyway or leaves at most one other item |
| `RoomTurns.AlikeInTurns` | internal/room/order.go:145-164 | turns depend on who added what, not on ranks or votes, so new ranks keep them |
| `RoomTurns.RemovalBreaksTurns` | internal/room/queue.go:504-533 | removing a waiting item can break the turns |
| `RoomTurns.RestartBreaksTurns` | internal/room/playback.go:192-205 | a restart plays the history as it was played, and re-sorts only in vote mode |
| `FairTurns.FairOrderByRounds` | internal/room/order.go:56-92 | the loop over groups and rounds computes that order |
| `FairTurns.GroupByAdder` | internal/room/order.go:66-74 | the grouping loop: adders by first appearance, each with their own items in order |
| `FairTurns.TakeTurns` | internal/room/order.go:81-90 | the rounds loop ends and takes every item once |
| `Order.SplitCurrent` | internal/room/order.go:20-30 | the loop separates the current item from the waiting ones |
| `Order.SplitPermutes` | internal/room/order.go:17-38 | putting the current item in front permutes the queue |
| `Order.SortByVotesSorts` | internal/room/order.go:41-50 | the vote order is sorted and a permutation |
| `Order.SortByVotesIsStable` | internal/room/order.go:41-50 | ties keep their order |
| `Order.StableSortIsUnique` | internal/room/order.go:41-50 | sorted, stable and a permutation determine the vote order |
| `Order.SortedStays` | internal/room/order.go:41-50 | sorting a sorted queue changes nothing |
| `Moves.PlaceAfterPlaces` | internal/room/order.go:94-112 | a moved item lands right after its anchor (or at the head, behind a leading current item), everything else keeps its order, and an unknown anchor is the only failure |
| `Moves.FollowingLeadsRotation` | internal/room/order.go:133-143 | the follower is the head of the rotation |
| `Moves.RotationAdvances` | internal/room/order.go:133-143 | when the follower leaves too, the rotation goes on behind it |
| `RoomCache.BatchPermutes` | internal/room/order.go:114-119 | current, batch, rest is a permutation of queue and batch |
| `Room.Room.constructor` | internal/room/room.go:200-244 | opens a room over what is stored: the listing, the history and the restored clock |
| `Room.Room.IndexOfItem` | internal/room/queue.go:102-109 | the first place of an item in the queue |
| `Room.Room.CurrentMediaLocked` | internal/room/queue.go:111-120 | the media row of the current item, if both are known |
| `Room.Room.ScheduleAdvanceLocked` | internal/room/playback.go:70-80 | arms or drops the timer for the end of the item |
| `Room.Room.ArmEmptyPauseLocked` | internal/room/playback.go:45-50 | starts the empty-room pause only for a playing room with nobody in it |
| `RoomPlayback.StartArms` | internal/room/playback.go:45-50 | whatever starts playback in an empty room that pauses when empty arms that pause |
| `Room.Room.SetPlaybackLocked` | internal/room/playback.go:37-41 | a new clock version with its timers |
| `Room.Room.SavePlaybackLocked` | internal/room/playback.go:231-252 | the columns are the clock's, or the room is unsaved |
| `Room.Room.SetCurrentLocked` | internal/room/playback.go:96-120 | switches to an item at position 0, playing exactly when it is ready, with nothing pending |
| `Room.Room.MarkPlayedLocked` | internal/room/queue.go:74-91 | moves an item into the stored and the remembered history |
| `Room.Room.ApplyOrderLocked` | internal/room/order.go:148-164 | re-ranks store and memory, or nothing when the order is the same |
| `Room.Room.ReorderByVotesLocked` | internal/room/votes.go:178-180 | the waiting items in vote order |
| `Room.Room.FairReorderLocked` | internal/room/fair.go:7-12 | turns when the room takes turns, else nothing |
| `Room.Room.RereadQueue` | internal/room/queue.go:28-71 | the fields are what the queries return |
| `Room.Room.NextLocked` | internal/room/playback.go:169-225 | the whole advance, its loops included, equals the step proved about above |
| `Room.Room.SkipFailedLocked` | internal/room/playback.go:178-191 | the loop over failed items |
| `Room.Room.RestartQueueLocked` | internal/room/playback.go:192-205 | the history becomes the queue in the order it was played |
| `Room.Room.OnEndedLocked` | internal/room/playback.go:84-92 | a stale callback does nothing |
| `Room.Room.Jump` | internal/room/playback.go:395-415 | the outgoing item goes to the history, the target becomes current |
| `Room.Room.Play` | internal/room/playback.go:276-308 | starts, or starts a countdown, or refuses |
| `RoomPlayback.PlayResumes` | internal/room/playback.go:276-308 | a paused ready item goes on at its position, or at the top once it was through, unless the start is counted down for three seconds first; nothing happens to an item that is not ready or plays |
| `Room.Room.EndCountdownLocked` | internal/room/playback.go:311-325 | starts when the countdown still stands and the item is ready |
| `RoomPlayback.EndCountdownResumes` | internal/room/playback.go:311-325 | a countdown that still stands ends, and a paused ready item goes on likewise |
| `Room.Room.Pause` | internal/room/playback.go:338-356 | freezes the clock where it is and drops waits and countdowns |
| `RoomPlayback.PauseHolds` | internal/room/playback.go:338-356 | at every later time viewers see the position of the moment of the pause; waits and countdowns are dropped |
| `Room.Room.Seek` | internal/room/playback.go:359-373 | moves the clock inside the media, keeping the playing flag |
| `RoomPlayback.SeekGoes` | internal/room/playback.go:359-373 | the position is the one asked for, or the nearer end of the item; it plays on if it played and is ready |
| `Room.Room.SetRate` | internal/room/playback.go:136-166 | folds at the old speed, then runs at the new |
| `RoomPlayback.RateKeepsPosition` | internal/room/playback.go:136-166 | only the six speeds are taken, and the position viewers see does not change with the speed |
| `Room.Room.PauseIfEmptyLocked` | internal/room/playback.go:58-66 | pauses only a playing room that is still empty |
| `RoomPlayback.EmptyPauseHolds` | internal/room/playback.go:58-66 | it pauses exactly a playing room that is empty and asks for it |
| `Room.Room.QueueVote` | internal/room/votes.go:102-142 | one vote toggled everywhere, then the vote order |
| `Room.Room.SkipVote` | internal/room/votes.go:146-174 | the threshold advances at once |
| `RoomQueue.SkipVoteEnds` | internal/room/votes.go:146-174 | the item ends if and only if there is a vote and the voters, this one's vote toggled, are no fewer than the threshold's share of the online users |
| `RoomQueue.OnlineExactly` | internal/room/votes.go:146-174 | the online users are those of the open connections, each once |
| `Room.Room.SettingsSet` | internal/room/votes.go:38-99 | settings and the order they ask for |
| `RoomQueue.SettingsAreTaken` | internal/room/votes.go:38-99 | settings are taken whole when the threshold is above zero and at most one, and the queue is permuted at most |
| `Room.Room.CheckBufferingLocked` | internal/room/presence.go:233-250 | ends a wait when everyone is ready, else arms or drops the patience timer |
| `RoomPlayback.WaitEndsExactly` | internal/room/presence.go:233-250 | a wait ends if and only if no connected user who was not left behind still buffers, and playback goes on at the position that was held |
| `Room.Room.Join` | internal/room/presence.go:23-68 | a viewer joins and the empty-room pause is off |
| `RoomPlayback.JoinAdds` | internal/room/presence.go:23-68 | one connection is added that neither buffers nor is left behind, and the pending empty pause is dropped |
| `Room.Room.Leave` | internal/room/presence.go:102-122 | a viewer leaves; the room may pause or go on |
| `RoomPlayback.LeaveArms` | internal/room/presence.go:102-122 | one connection goes, and the empty pause is armed when it was the last of a playing room that asks for it |
| `Room.Room.Kick` | internal/room/presence.go:135-147 | all connections of a user go |
| `RoomQueue.KickEnds` | internal/room/presence.go:135-147 | all connections of the user go and no other |
| `Room.Room.Report` | internal/room/presence.go:157-186 | a change in who is buffering |
| `RoomPlayback.ReportCounts` | internal/room/presence.go:157-186 | one connection's report is stored; being left behind lasts while it goes on buffering |
| `Room.Room.StartWaitingLocked` | internal/room/presence.go:262-274 | pauses for whoever still buffers |
| `RoomPlayback.StartWaitingHolds` | internal/room/presence.go:262-274 | the position is held exactly when somebody is stuck while the room plays and waits for buffering |
| `Room.Room.StopWaitingLocked` | internal/room/presence.go:278-290 | goes on without them, once each |
| `RoomPlayback.StopWaitingLeavesBehind` | internal/room/presence.go:278-290 | playback goes on where it was held, and nobody counts as stuck until they buffer anew |
| `Room.Room.QueueAdd` | internal/room/queue.go:124-204 | an admitted link appended or placed next, in turn, started if idle, or refused |
| `RoomQueue.AdmittedExactly` | internal/room/queue.go:124-204 | a link is admitted if and only if the room is open, has fewer than 200 items, and does not hold its media unless forced |
| `RoomQueue.AddLands` | internal/room/queue.go:124-204 | without an order by rule the new item comes last, or right behind the current one when asked for |
| `Room.Room.InsertManyLocked` | internal/room/queue.go:284-312 | the loop of a bulk add takes exactly the new links up to the limit |
| `RoomQueue.TakenAreNew` | internal/room/queue.go:284-312 | what is taken are the first links to media that is not held, in order, as many as there is room for |
| `Room.Room.QueueAddMany` | internal/room/queue.go:228-344 | a bulk add as one step |
| `RoomQueue.AddManyLands` | internal/room/queue.go:228-344 | without an order by rule the batch comes last, or right behind the current item, which then leads |
| `Room.Room.QueueReplay` | internal/room/queue.go:423-469 | a fresh row for an item of the history |
| `Room.Room.QueueRemove` | internal/room/queue.go:504-533 | deletes an item, or advances when it is current |
| `Room.Room.QueueMove` | internal/room/queue.go:537-563 | places an item, refusing rule-ordered queues, unknown anchors and the current item |
| `RoomQueue.MoveLands` | internal/room/queue.go:537-563 | a move is refused in exactly the six cases; else the item is right behind its anchor, or leads behind a leading current item, and nothing else moves |
| `Room.Room.QueueShuffle` | internal/room/queue.go:389-413 | a permutation behind a leading current item |
| `RoomQueue.ShuffleKeeps` | internal/room/queue.go:389-413 | a shuffle keeps every item and a leading current one in its place |
| `Room.Room.QueueClear` | internal/room/queue.go:363-385 | only the current item stays |
| `RoomQueue.ClearLeaves` | internal/room/queue.go:363-385 | the current item, if it is queued, the clock and the history stay |
| `Room.Room.QueueClearPlayed` | internal/room/queue.go:472-484 | the history is gone, stored and remembered |
| `Room.Room.QueueRetry` | internal/room/queue.go:566-586 | a failed ingest starts over |
| `RoomQueue.RetryQueues` | internal/room/queue.go:566-586 | exactly failed media of a queued item is queued again |
| `Room.Room.EndSession` | internal/room/room.go:350-374 | everything goes to the history, playback stops, everyone leaves |
| `Room.Room.Tick` | internal/room/room.go:380-393 | saves what is due and reports idle only when saved, stopped and empty |
| `RoomPlayback.TickSaves` | internal/room/room.go:380-393 | a tick writes the clock after a failed write and once in every interval of a playing room |
| `Room.Room.Shutdown` | internal/room/room.go:396-420 | no timer is left and the clock is saved as far as possible |
| `RoomPlayback.CloseSaves` | internal/room/room.go:396-420 | a closed room has no timer left and its clock written, if it could be |
| `Room.Room.MediaUpdatedLocked` | internal/room/queue.go:599-614 | a fresh row, and a start when the current item just became playable |
| `RoomPlayback.MediaUpdatedStarts` | internal/room/queue.go:599-614 | a row that becomes ready starts the current item that waits for it at its top, and moves no other clock |
| `Room.Room.ReloadQueue` | internal/room/queue.go:654-670 | re-reads and gives a lost current item a successor |
| `RoomSpec.SkipNeededIsLeast` | internal/room/votes.go:24-35 | the votes needed are the least whole number, at least one, that is no less than the threshold's share of the online users, and never more than are online |
| `Repository.Repo.ListQueue` | internal/repository/queue.go:17-25 | exactly the unplayed rows by rank, then age, with their vote counts |
| `Repository.Repo.ListPlayed` | internal/repository/queue.go:28-37 | the newest 20 of the history, newest first |
| `Repository.Repo.AddQueueItem` | internal/repository/queue.go:106-120 | a row ranked behind all queued ones |
| `Repository.Repo.MarkQueueItemPlayed` | internal/repository/queue.go:58-61 | an unplayed row gets its time, no other row changes |
| `Repository.Repo.RequeuePlayed` | internal/repository/queue.go:65-78 | the whole history back in the queue in playing order, behind what is queued |
| `Repository.Repo.ClearPlayed` | internal/repository/queue.go:81-85 | the history deleted, votes and references with it |
| `Repository.Repo.ClearQueue` | internal/repository/queue.go:123-127 | all unplayed rows but the kept one deleted |
| `Repository.Repo.DeleteItems` | internal/repository/queue.go:130-133 | rows deleted with their votes; a reference from the playback columns is emptied, its other columns stay |
| `Repository.Repo.SetQueueRanks` | internal/repository/queue.go:137-151 | row by row, the ids get ranks 1, 2, 3, ... |
| `Repository.Repo.ToggleQueueVote` | internal/repository/queue.go:155-169 | the vote exists afterwards if and only if it did not before |
| `Repository.Repo.ListQueueVotes` | internal/repository/queue.go:173-193 | vote by vote: an item is listed for a user if and only if the vote is stored, and nobody is listed without a vote |
| `Repository.Repo.UpdateRoomPlayback` | internal/repository/queue.go:196-203 | the columns written, or nothing |
| `Repository.SortRows` | internal/repository/queue.go:39-55 | a query's rows, each once, sorted |
| `Repository.HighestRank` | internal/repository/queue.go:105-120 | the maximum rank of the queued rows |
| `Jobs.Queue.Enqueue` | internal/jobs/queue.go:105-129 | a pending row with its budget |
| `Jobs.Queue.Claim` | internal/jobs/queue.go:133-153 | the earliest runnable unlocked row, or none when there is none, under a token never used before |
| `Jobs.Queue.Renew` | internal/jobs/queue.go:172-175 | moves the lock time only for the owner of a running row |
| `Jobs.Queue.Complete` | internal/jobs/queue.go:199-202 | finishes only the owner's row |
| `Jobs.Queue.Fail` | internal/jobs/queue.go:208-223 | back to pending with backoff, or failed for good, only for the owner |
| `Jobs.FailMeans` | internal/jobs/queue.go:208-223 | a failed attempt gives its lease back; the job waits for half a minute to half an hour, unless the error is permanent or the budget used up |
| `Jobs.Queue.RecoverStale` | internal/jobs/queue.go:242-254 | exactly the rows whose lock is older than a lease are taken away |
| `Jobs.RecoverMeans` | internal/jobs/queue.go:242-254 | a row whose lock is older than a lease is given back, failed once its budget is used up; any other is left alone |
| `Jobs.Queue.Retry` | internal/jobs/queue.go:257-264 | only a failed row gets its budget back |
| `Jobs.Backoff` | internal/jobs/queue.go:227-236 | at least 30 seconds and at most 30 minutes, doubling with each of the first six attempts and at the cap from the seventh on |
| `PackageSafety.PublishedStaysComplete` | internal/repository/media.go:103-118 | in every interleaving of claims, renewals, fenced writes, uploads, publishes, recoveries and janitors, the package a media row publishes holds every file its attempt produced |
| `IngestOrder.PublishedWasMade` | internal/ingest/worker.go:183-316 | in any run from the empty system, the attempt whose package a row publishes moved this media, owning its job each time, to probing, downloading, packaging and uploading in that order, its files are what packaging handed over, and then it published |
| `IngestOrder.WritesRenew` | internal/jobs/queue.go:177-195 | a fenced write that commits keeps the job from being recovered for a whole lease; one that does not changes no row |
| `IngestOrder.WritesMean` | internal/ingest/worker.go:318-335 | which columns each fenced write changes |
| `PackageSafety.StepIsSafe` | internal/mediastore/attempts.go:18-71 | one step keeps that |
| `PackageSafety.UnusedIsForEver` | internal/repository/media.go:103-118 | a package judged unused is never published later |
| `PackageSafety.UnusedMeansDead` | internal/mediastore/attempts.go:46-60 | the check deletes of what was listed exactly what the query answers, and in no run that follows is any of it published |
| `PackageSafety.EmptyIsSafe` | internal/jobs/queue.go:105-129 | the empty system is safe |
| `AttemptFence.RevokedIsInert` | internal/jobs/queue.go:155-223 | once its job was recovered, completed or failed, no later step of an attempt changes a job row or the status, progress or package of a media row |
| `AttemptFence.TakingAwayRevokes` | internal/jobs/queue.go:238-254 | completion, failure and recovery revoke, and nothing else does |
| `AttemptFence.StepReady` | internal/ingest/worker.go:318-328 | ready media stops being ready exactly when an owner of one of its jobs writes a status or a failure or it is re-queued, and changes its package exactly when such an owner publishes another |
| `AttemptFence.RunReady` | internal/ingest/worker.go:59-71 | in every state of a run the media is ready with its package if and only if no step of the run is one of those |
| `AttemptFence.ReadyIsAbsorbing` | internal/ingest/worker.go:59-71 | with one live job per media and only failed rows re-queued no step is, so ready media keeps its status and package through every retry, recovery and stale attempt |
| `AttemptFence.SecondJobUndoesReady` | internal/ingest/ingest.go:255-264 | a run from the empty system that re-queues only failed rows: a failure with retries left, a second job, a publication, and the other job moves the published row back |
| `AttemptFence.BudgetBoundsClaims` | internal/jobs/queue.go:105-153 | between resets the claims of a job are bounded by what is left of its budget, under any mix of failures and recoveries |
| `AttemptFence.StatusChangesComeToRest` | internal/jobs/queue.go:204-254 | every change of status but a reset brings a job strictly closer to rest |
| `AttemptFence.StepKeepsBudget` | internal/jobs/queue.go:133-153 | pending implies attempts left, running implies at most the maximum, and an owner's own count is the row's |
| `AttemptFence.EmptyIsFenced` | internal/jobs/queue.go:105-129 | the empty system satisfies all of these |
| `IngestWorker.Worker.Fenced` | internal/jobs/queue.go:182-196 | the media row changes only under the job's row lock |
| `IngestWorker.Worker.SetStatus` | internal/ingest/worker.go:321-328 | the fenced status step of the protocol |
| `IngestWorker.Worker.Progress` | internal/ingest/ingest.go:293-310 | the fenced progress step |
| `IngestWorker.Worker.Publish` | internal/ingest/worker.go:296-316 | the fenced publication |
| `IngestWorker.Worker.MarkFailed` | internal/ingest/worker.go:72-104 | the fenced failure |
| `IngestWorker.Worker.UploadDir` | internal/ingest/worker.go:284-295 | every file of the directory, one object at a time |
| `IngestWorker.Candidates` | internal/mediastore/attempts.go:22-45 | exactly the packages all of whose objects are older than the cutoff |
| `Watchdog.KeepLease` | internal/jobs/worker.go:155-186 | the renewal loop cancels its handler within four fifths of a lease after the stored lock time |
| `Watchdog.WithinFourFifths` | internal/jobs/worker.go:150-186 | the same for every pattern of slow, failing or half-landed renewals |
| `Watchdog.NeverRecoveredWhileRunning` | internal/jobs/queue.go:242-254 | so RecoverStale never takes a job whose handler still runs |
| `Watchdog.ClaimMayTake` | internal/jobs/worker.go:114-148 | whatever the renewals do, RecoverStale may take the job at no time before its handler is cancelled, if and only if the claim was answered so early that a safety time later is at most a lease and a nanosecond after it was sent |
| `Watchdog.LateClaimLosesTheMargin` | internal/jobs/worker.go:114-148 | for every later answer there is a time before the deadline at which RecoverStale may take the job of a handler that nothing renews |
| `ClientClock.EstimateErrsBy` | web/src/lib/clock.ts:35-50 | at every point of any sequence of honest pongs, when more than half of the kept samples took at most 2e, the estimate errs by at most e |
| `ClientClock.SampleErrsByHalf` | web/src/lib/clock.ts:36-40 | one sample errs by at most half its round trip |
| `ClientClock.MiddleErrsBy` | web/src/lib/clock.ts:43-47 | the sorted middle is right however wrong the minority is |
| `ClientClock.KeepsTheLatest` | web/src/lib/clock.ts:40-41 | the samples are always those of the last nine pongs |
| `ClientClock.SortSorts` | web/src/lib/clock.ts:43-43 | the sort is a sorted permutation |
| `ClientClock.HalfIsNotEnough` | web/src/lib/clock.ts:43-47 | exactly half quick samples do not suffice |
| `ClientClock.ClockSync.HandlePong` | web/src/lib/clock.ts:35-50 | the object's samples, offset and round trip after a pong |
| `ClientClock.ServerNowErrsBy` | web/src/lib/clock.ts:53-55 | what the client takes for the server time is then right up to e |
| `Netguard.SpelledIsRead` | internal/netguard/netguard.go:128-176 | every 32-bit address, in one to four parts, each decimal, octal or hex, with or without a final dot, is read back |
| `Netguard.ReadIsSpelled` | internal/netguard/netguard.go:128-161 | a host that is read has one to four parts that are exactly the address's numbers |
| `Netguard.CombinedIsExact` | internal/netguard/netguard.go:148-160 | numbers are taken if and only if each is in range, and then they are the parts of the address they give |
| `Netguard.QuadAgrees` | internal/netguard/netguard.go:131-135 | the strict dotted form and the legacy reading agree |
| `Netguard.PartParses` | internal/netguard/netguard.go:163-176 | a number printed in any of the three radices is read back |
| `Netguard.ParseInetAton` | internal/netguard/netguard.go:136-160 | the loops over the parts compute that reading |
| `Netguard.Nat64IsJudgedAsIPv4` | internal/netguard/netguard.go:75-78 | a NAT64 address (section 2.1 of RFC 6052) is public if and only if its IPv4 address is |
| `Netguard.SixToFourIsJudgedAsIPv4` | internal/netguard/netguard.go:79-82 | a 6to4 address (section 2 of RFC 3056) is public if and only if its IPv4 address is, whatever the rest |
| `Netguard.MappedIsJudgedAsIPv4` | internal/netguard/netguard.go:65-65 | an IPv4-mapped address is judged as IPv4 |
| `Netguard.IsPublicAddr` | internal/netguard/netguard.go:64-84 | the scan of the prefix list decides the same predicate |
| `Netguard.PublicByOctets` | internal/netguard/netguard.go:31-84 | an IPv4 address is refused if and only if its octets are those of this network, private, shared, loopback, link-local, protocol, documentation, benchmarking, multicast or reserved space |
| `Netguard.HasOctets` | internal/netguard/netguard.go:64-84 | every IPv4 address has such octets |
| `Netguard.PublicByGroups` | internal/netguard/netguard.go:31-84 | an IPv6 address is as public as the IPv4 address it holds; else it is refused if and only if its leading groups are one of the listed ranges |
| `Netguard.HasGroups` | internal/netguard/netguard.go:64-84 | every IPv6 address has such groups |
| `WebVtt.StampParses` | internal/webvtt/webvtt.go:209-237 | a printed stamp is read back, for every time that can be read |
| `WebVtt.ParsedStampPrints` | internal/webvtt/webvtt.go:209-232 | what is read can be printed |
| `WebVtt.CueParses` | internal/webvtt/webvtt.go:182-207 | a printed well-formed cue is read back with its id, times, settings and lines |
| `WebVtt.ParsedIsWellFormed` | internal/webvtt/webvtt.go:182-207 | what is read with at least one line is well-formed |
| `WebVtt.FromRollUp` | internal/webvtt/webvtt.go:110-143 | the two loops of the conversion compute the pairing |
| `WebVtt.RollUpShowsAll` | internal/webvtt/webvtt.go:107-143 | each introduced line is shown once and in order, one or two to a cue |
| `WebVttWords.RollUpShowsCues` | internal/webvtt/webvtt.go:107-143 | the lines shown are, in order, the cleaned last inline-stamped line of every cue that has one, wherever that is not blank |
| `WebVttWords.NormalizedEitherWay` | internal/webvtt/webvtt.go:68-90 | the conversion is taken if and only if some line of some cue has an inline time stamp |
| `WebVttWords.TidyKeepsCues` | internal/webvtt/webvtt.go:147-167 | tidying keeps exactly the cues with text |
| `WebVttWords.TidyKeepsText` | internal/webvtt/webvtt.go:147-167 | and their text, line by line, without the blank ones |
| `WebVttWords.TidyKeepsCue` | internal/webvtt/webvtt.go:169-176 | times and id stay, and of the settings exactly the left-edge pin goes |
| `WebVtt.RollUpBreaksOnPauses` | internal/webvtt/webvtt.go:132-135 | a cue with room left ends only where a pause of more than a second begins |
| `WebVtt.RollUpPairsAcrossNoPause` | internal/webvtt/webvtt.go:132-141 | two lines share a cue only when consecutive and without such a pause, from the start of the first to the end of the second |
| `WebVtt.CleanHasNoInline` | internal/webvtt/webvtt.go:177-180 | cleaning leaves no inline time stamp, not even one put together by removing a tag |
| `WebVttWords.CleanKeepsText` | internal/webvtt/webvtt.go:177-180 | of any line, cut into texts and tags, cleaning keeps every character of the texts that is no white space, in order, and nothing of the tags |
| `WebVttWords.CleanIsItsWords` | internal/webvtt/webvtt.go:177-180 | with only the white space that is squeezed, the cleaned line is the words of its texts one space apart |
| `WebVttWords.LineIsParted` | internal/webvtt/webvtt.go:32 | every line is texts and tags like that |
| `WebVttWords.StampIsInline` | internal/webvtt/webvtt.go:31 | a line with a stamp in angle brackets anywhere is one with an inline time stamp |
| `WebVttWords.InlineIsStamp` | internal/webvtt/webvtt.go:31 | and there is no other |
| `WebVtt.Tidy` | internal/webvtt/webvtt.go:147-166 | the loop over plain cues |
| `WebVtt.NormalizedTwice` | internal/webvtt/webvtt.go:78-83 | normalising a list of cues twice is normalising it once |
| `WebVtt.NormalizedIsReadBack` | internal/webvtt/webvtt.go:92-103 | every cue that normalising writes is read back unchanged |
| `WebVttTwice.FileNormalizedTwice` | internal/webvtt/webvtt.go:46-103 | normalising a whole file twice is normalising it once if and only if the result holds no CRLF pair and has no white space before its final empty line; what is no WebVTT file comes back unchanged |
| `WebVttTwice.NormalizeReturns` | internal/webvtt/webvtt.go:46-103 | the result holds no more carriage returns than the input once its CRLF pairs are line feeds |
| `WebVttTwice.PairsChangeTwice` | internal/webvtt/webvtt.go:47 | a file with a CR CR LF line end keeps a pair, and changes the second time |
| `WebVttTwice.BlankChangesTwice` | internal/webvtt/webvtt.go:47-103 | a header with a blank behind it and a cue without text: the result ends in the blank, and changes the second time |
| `WebVttFile.NormalizeFile` | internal/webvtt/webvtt.go:46-103 | the loops over blocks, cues and extras compute that result |
| `WebVttFile.BlocksOfCore` | internal/webvtt/webvtt.go:47-48 | splitting what was written at empty lines gives its blocks back |
| `WebVttFile.CuesReadBack` | internal/webvtt/webvtt.go:59-75 | what was written is read as the same extras and the same cues |
| `WebVttFile.NormalizedIsCanonical` | internal/webvtt/webvtt.go:77-103 | every normalised file consists of a header, blocks that are no cues, and neat well-formed cues |
| `WebVttFile.NoCueTrimmed` | internal/webvtt/webvtt.go:182-207 | a block is a cue with white space at its end if and only if it is one without |

## Left out

- Access checks, refusal messages, chat, log lines, notifications, broadcasts, presence coalescing, rate limiters and viewer lag: they do not change the state modelled here; a refused command is a step that changes nothing.
- Items as shared pointers: the queue and the history hold values, so an alias between them is not modelled.
- `Refresh`, the manager's unload race and a failed write in the middle of an advance: they are not atomic steps.
- `ReconcileMedia`: it is a series of `MediaUpdated` steps.
- `PurgePlayed`: modelled as the deletion of any set of played rows, of which its cutoff selects one.
- `SetRoomSchedule` failing: the announcement is cleared in memory either way.
- Deadlines of the countdown, buffering and empty-room timers: their callbacks re-check the state but not the timer, so only their effect whenever they run is modelled.
- Room.Room.QueueAddMany: does not model the media row that admission writes for a link it then skips because the history still holds media that was deleted meanwhile, nor the transaction's rollback of such rows.
- Room.Room.QueueRetry: the second ingest job it enqueues is modelled in the ingest protocol only, not in the room.
- Room.Room.Tick: the idle delay since the last activity is not modelled; a room reported idle here may still be kept.
- RoomAdvance.StepTimely: speaks of items whose ready media keeps its length, which is what ingest guarantees by not touching ready rows.
- RoomDrift.DriftBound: assumes that the current item keeps its length over the run, which RoomAdvance.KeepsLength proves while it plays.
- RoomDrift.StepLands: leaves loads aside; a reloaded clock is the stored one, and RoomDrift.DriftBound applies to it when its position is one of the item.
- RoomInside.StepInside: leaves loads aside; a reloaded position is the stored one, and no rule ties it to the length that the reload reads.
- The deletion of a media row and the room's re-read are one step here; in the program `ReloadQueue` runs a moment later (`internal/room/manager.go:201-208`), so a command in between works on a queue that still shows the deleted rows.
- Jobs.Backoff: durations are unbounded, so the program's 64-bit shift does not overflow here.
- Job kinds other than ingest, `last_error`, job payload decoding and lost commit acknowledgements: outside the fence.
- The byte-budget evictor and the deletion of media rows inside the lease protocol: they delete what the protocol publishes.
- Watchdog.KeepLease: a renewal that timed out and lands only after the watchdog fired is not modelled.
- Netguard.IsPublicAddr: IPv6 zones and the text forms of IPv6 addresses are not modelled; an address comes as a number.
- Netguard.ParseInetAton: or-ing the shifted parts is modelled as their sum, which it equals because their bits are disjoint.
- WebVtt.StampParses: numbers are unbounded, so the program's 64-bit range check never rejects one here.
- WebVttFile.NormalizeFile: text is a sequence of characters, not of the bytes that encode them.
- The quality ladder of `internal/source/source.go`, yt-dlp, ffmpeg, object storage and SQL execution: only their effect on rows and objects matters here, or they add easier members.
- HTTP, WebSocket, configuration, metrics, cryptography and the user interface.

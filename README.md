# Playlist reordering core of democratic-spotify-playlist

This project models the reordering pass in `src/playlistOrder.js`. A shared playlist
should alternate between its contributors. One pass does the following:

- It finds the track the player reports as it lies in the playlist (the `findIndex` of
  `getCurrentlyPlayingIndex`).
- It groups the unplayed items into one queue per contributor, keyed in the order the
  contributors first appear (`collectTracksByUsers`).
- It merges the queues round-robin behind the played part (`createListWithNewOrder`).
- It tags every playlist item with its old position (`createListWithOldOrder`).
- It compares the old order with the new one position by position and emits a
  `[oldTag, newTag]` pair wherever they differ (`getChanges`).
- After each pair it splices its working list to match (`fixOldArray`).

The module's two variables, `previousSongIndex` and `usersTracksMap`, live on from one
pass to the next. They are the fields of the class `PlaylistOrder.Orderer`.

The JavaScript `Map` is a sequence of `(user, queue)` pairs in insertion order. An
`undefined` array slot is `None`. Reading `.index` of `undefined` throws a `TypeError`,
modelled as `Err(UndefinedEntry)`. The self-assignment `x = x++` on line 74 writes
`x + 1` and then `x` again. The model does both writes and proves the loop changes
nothing. Slice and splice positions are clamped the way JavaScript clamps relative
indices (`JsArray.RelativeIndex`). The loop bound `oldList.length` in `getChanges` is read
afresh on every iteration.

There is one module per concern:

- `JsArray`: slice and splice.
- `Tracks`: items and tagged entries.
- `Grouping`: the contributor map.
- `Merge`: round robin.
- `Diff`: change list and repair.
- `Playback`: the playing-position search.
- `Relocation`: the repair the change list evidently intends.
- `PlaylistOrder`: the pass, the `Orderer` class and the findings.

Each operation is specified by a function: `Collect`, `RoundRobin`, `Changes`/`Scan`, `FixOld` and `FindFrom`. The
imperative members are proved equal to those functions:

- `Orderer.CollectTracksByUsers`
- `Orderer.CreateListWithNewOrder`
- `Orderer.ShiftRound`
- `Diff.FixOldArray`
- `Diff.GetChanges`

The lemmas state what the functions promise.

## Model

| member | source | states |
|---|---|---|
| JsArray.RelativeIndex | src/playlistOrder.js:77 | a relative splice position denotes a position within `0 .. length` |
| JsArray.Slice | src/playlistOrder.js:101 | `slice` never returns more items than it is given |
| JsArray.RemoveAt | src/playlistOrder.js:77 | `splice(k, 1)[0]` with `k` denoting an element leaves the rest one shorter; with `k` past the end it gives `undefined` and leaves the array unchanged |
| JsArray.RemoveAtPermutes | src/playlistOrder.js:77 | the element `splice(k, 1)` removes, together with the rest, is the old multiset |
| JsArray.InsertAt | src/playlistOrder.js:77 | `splice(k, 0, x)` puts `x` at the clamped position `k` and grows the array by one |
| JsArray.InsertAtPermutes | src/playlistOrder.js:77 | `splice(k, 0, x)` adds exactly `x` to the array's multiset |
| Tracks.CreateListWithOldOrder | src/playlistOrder.js:80-87 | one entry per item, each tagged with its own position; forgetting the tags gives the playlist back |
| Tracks.UntagPermutation | src/playlistOrder.js:80-87 | two entry lists that are permutations of each other describe item lists that are permutations of each other |
| Grouping.Add | src/playlistOrder.js:7-15 | one `forEach` step: `e` is appended to its contributor's queue, and a contributor not yet a key first becomes the newest key with an empty queue (its properties: `Grouping.AddIsGetThenSet` and the `Collect...` rows) |
| Grouping.Collect | src/playlistOrder.js:5-17 | the map after `collectTracksByUsers(ts, start)`: `Add` applied to each item in playlist order, tagged `index + start`; the tagged items in scan order are `Grouping.Tag` (its properties: the `Grouping.Collect...` rows) |
| Grouping.Get | src/playlistOrder.js:8 | `Map.get` is defined exactly for the keys, and gives that contributor's queue |
| Grouping.Set | src/playlistOrder.js:9-11 | `Map.set`: an existing key keeps its place and gets the new queue; a new key goes last; every other key is untouched |
| Grouping.AddIsGetThenSet | src/playlistOrder.js:8-15 | one `forEach` step (the guarded `set(addedBy, [])`, then `set(get(addedBy).concat([entry]))`) appends the entry to its contributor's queue |
| Grouping.CollectQueueOf | src/playlistOrder.js:5-17 | every contributor's queue grows by exactly that contributor's items, tagged `index + startIndex`, in playlist order |
| Grouping.CollectShape | src/playlistOrder.js:5-17 | existing keys keep their place, and their queues only grow at the end |
| Grouping.CollectUsers | src/playlistOrder.js:5-17 | the keys afterwards are the old keys plus the contributors of the items |
| Grouping.CollectNewKeysInScanOrder | src/playlistOrder.js:5-17 | new keys come after the old ones, in the order of their first item in the scanned range |
| Grouping.CollectWellKeyed | src/playlistOrder.js:5-17 | keys stay distinct, and every queue holds only its own contributor's entries |
| Grouping.CollectFlatten | src/playlistOrder.js:5-17 | the map's entries grow by exactly the tagged items (as a multiset) |
| Grouping.CollectNonEmpty | src/playlistOrder.js:5-17 | a map without empty queues gets no empty queue |
| Merge.Heads | src/playlistOrder.js:23-24 | what one `filter` round pushes: the `shift` of every queue in play, in map order, `undefined` for an empty queue (`Merge.Front` is one `shift`) |
| Merge.Survivors | src/playlistOrder.js:23-26 | the queues one `filter` round keeps: each queue after its `shift`, dropped when that leaves it empty (`Merge.Shifted` is one callback's verdict) |
| Merge.RoundRobin | src/playlistOrder.js:20-27 | the whole `newList` the `while` loop pushes: a round of heads, then the merge of the survivors, until no queue is left (its properties: the `Merge.RoundRobin...` rows) |
| Merge.Drained | src/playlistOrder.js:20-27 | the map the merge leaves behind: the same keys, every queue shifted until empty, because `Array.from(usersTracksMap.values())` hands the loop the map's own arrays |
| Merge.DrainedMerge | src/playlistOrder.js:20-27 | merging a drained map pushes exactly one `undefined` per key and nothing else, which is what a later pass meets when the map is not cleared |
| Merge.SurvivorsLighter | src/playlistOrder.js:22-27 | each round of `filter` strictly lowers the entries-plus-queues weight, so the `while` loop ends |
| Merge.RoundRobinEntries | src/playlistOrder.js:22-27 | the merged list holds every queued entry once, and one `undefined` per queue that starts out empty |
| Merge.RoundRobinPermutation | src/playlistOrder.js:19-29 | the merged list is a permutation of the queued entries plus one `undefined` per empty queue; without empty queues it has no `undefined` and is as long as the queues together |
| Merge.RoundRobinContributorOrder | src/playlistOrder.js:19-29 | every contributor's tracks appear in the merged list in queue order |
| Merge.SingleQueueMerge | src/playlistOrder.js:22-27 | with a single non-empty queue the merge is that queue's entries in order, with no `undefined` |
| Merge.RoundRobinByRounds | src/playlistOrder.js:22-27 | the merged list is round 0, round 1, ... in order, where round `r` is the `r`-th entry of every queue that has one, in map order |
| Diff.Move | src/playlistOrder.js:77 | the nested splice keeps the length when `endIndex` denotes an element, and grows the list by one past the end |
| Diff.MovePermutes | src/playlistOrder.js:77 | the nested splice keeps the multiset when `endIndex` denotes an element; past the end it adds one `undefined` |
| Diff.MoveForward | src/playlistOrder.js:77 | for `startIndex < endIndex`, the entry at `endIndex` lands at `startIndex + 1`, the entries between shift up by one, and the rest stay put |
| Diff.MoveBackward | src/playlistOrder.js:77 | for `endIndex <= startIndex` with `startIndex + 1 < length`, the entry at `endIndex` lands at `startIndex + 1`, the entries between shift down by one, and the rest stay put |
| Diff.MoveBackwardClamped | src/playlistOrder.js:77 | for `endIndex <= startIndex` with `startIndex + 1 >= length` (change `[3, 1]` on four tracks meets it), the outer splice clamps to the end: the entry at `endIndex` becomes the last one and the entries after it shift down by one |
| Diff.FixOld | src/playlistOrder.js:71-78 | `fixOldArray` as a value: a `TypeError` when a slot the loop reads holds `undefined` or lies past the end, otherwise the working list after the nested splice (`Diff.Move`) |
| Diff.FixOldArray | src/playlistOrder.js:71-78 | `fixOldArray` throws exactly when a slot it reads is `undefined`; otherwise its loop changes nothing and only the splice takes effect (equals `FixOld`) |
| Diff.Scan | src/playlistOrder.js:60-67 | the `for` loop of `getChanges` from position `i`: skip agreeing tags, otherwise emit `[oldTag, newTag]` and continue on the list `FixOld` leaves, with the bound re-read each iteration; `undefined` at `i` in either list throws, and so does line 66's `map` over the repaired list once a splice past the end has put `undefined` into it |
| Diff.Changes | src/playlistOrder.js:58-69 | `getChanges(oldList, newList)`: the scan from position 0, giving the change list and the working list as the repairs left it, or the `TypeError` of lines 61, 66 or 73 |
| Diff.GetChanges | src/playlistOrder.js:58-69 | the loop, with its own repairs, the logging `map` of line 66 and the bound re-read each iteration, computes `Changes` |
| Diff.ReadIndices | src/playlistOrder.js:66 | `oldList.map((item) => item.index)` succeeds exactly when no slot holds `undefined`, and then yields every slot's tag in order |
| Diff.FilledMoveKeepsLength | src/playlistOrder.js:77 | a splice result without `undefined` has the old list's length, so a pass that survives line 66 never grows the list |
| Diff.ChangesSucceed | src/playlistOrder.js:58-69 | on identity-tagged old entries and a target tagged within range, `getChanges` never throws and emits at most one change per position; the working list stays a permutation |
| Diff.NoChangesIffTagsAgree | src/playlistOrder.js:58-69 | no changes and an untouched list exactly when every position's tags already agree, in both directions |
| Diff.ChangesBound | src/playlistOrder.js:58-69 | a successful pass keeps the list's length and emits at most one change per position of the old list |
| Diff.ChangesAreMismatches | src/playlistOrder.js:61-64 | every emitted change has differing tags, and its second tag is a tag of the target |
| Diff.ScanSkips | src/playlistOrder.js:60-62 | positions whose tags agree are skipped at no cost |
| Playback.FindAt | src/playlistOrder.js:34-37 | `findIndex` from position `k`: the first accepted position, or `-1` with none accepted; `Playback.Accepts` is the callback of lines 35-36 |
| Playback.FindFrom | src/playlistOrder.js:34-37 | the first position at or after `previousSongIndex` holding the reported track, or `-1` |
| Playback.NotFoundIffAbsent | src/playlistOrder.js:34-38 | the search answers `-1` exactly when no such position exists |
| Relocation.Relocate | src/playlistOrder.js:77 | corrected move: the item at `from` ends up at `to`, and the length is kept |
| Relocation.RelocatePositions | src/playlistOrder.js:77 | corrected move: items before both positions and after both stay put, and the items between them shift one place toward the vacated position |
| Relocation.RelocatePermutes | src/playlistOrder.js:77 | the corrected move keeps the multiset |
| Relocation.Plan | src/playlistOrder.js:58-69 | corrected relocation planning, left to right: replaying the moves gives the target. It makes at most one move per remaining position, each taken from the right of the position it fills |
| Relocation.PlanOfSorted | src/playlistOrder.js:60-62 | a list already in target order needs no move |
| PlaylistOrder.Pass | src/playlistOrder.js:96-105 | one `orderPlaylist` from a given map and remembered position: find the playing position, collect the unplayed part into the map, tag the playlist, merge, and compute the changes; the map is left drained and the position remembered |
| PlaylistOrder.NewOrder | src/playlistOrder.js:104 | the target list: the tagged playlist up to the playing position, then the round-robin merge of the map (`createListWithNewOrder(tracksInfo.slice(0, currentIndex))`) |
| PlaylistOrder.FreshPass | src/playlistOrder.js:1-2 | a pass from the empty map of module load, as the first pass after loading is |
| PlaylistOrder.SplitCovers | src/playlistOrder.js:101-104 | the played slice and the unplayed slice cover the playlist. With no playing track, the unplayed slice is at most the last item |
| PlaylistOrder.FreshTarget | src/playlistOrder.js:101-104 | with a fresh map, the target list is as long as the playlist and every slot holds an entry with a tag in `-1 .. n - 1` |
| PlaylistOrder.FreshPassSucceeds | src/playlistOrder.js:96-105 | starting from an empty map, a pass never throws, emits at most one change per track, and leaves a permutation of the tagged playlist |
| PlaylistOrder.NotFoundMovesLastTrack | src/playlistOrder.js:99-105 | in a first pass (empty map) that finds no playing track, `slice(-1)` picks the last item; that pass emits exactly `[n - 1, -1]` and the list is unchanged |
| PlaylistOrder.StaleMapBreaksNextPass | src/playlistOrder.js:1-2 | the map kept between passes makes a second pass on the same two-track playlist throw |
| PlaylistOrder.FairOrder | src/playlistOrder.js:101-104 | the target order as items: as long as the playlist, the played prefix unchanged, the unplayed part a permutation of itself |
| PlaylistOrder.FairPlan | src/playlistOrder.js:58-78 | corrected repair: replaying the moves on the playlist gives `FairOrder`. At most one move per track, and none fills a played position |
| PlaylistOrder.RepairMissesFairOrder | src/playlistOrder.js:58-78 | on tracks A, A, A, B with the first playing, the changes are `[1,3] [3,1] [1,2]` and the working list ends a0 b0 a2 a1 instead of a0 b0 a1 a2 |
| PlaylistOrder.Orderer.constructor | src/playlistOrder.js:1-2 | module load: position 0 and an empty map |
| PlaylistOrder.Orderer.CollectTracksByUsers | src/playlistOrder.js:5-17 | the `forEach` leaves the map as `Collect` of the old map; keys stay distinct; the remembered position is untouched |
| PlaylistOrder.Orderer.CreateListWithNewOrder | src/playlistOrder.js:19-29 | returns the played entries followed by the round-robin merge of the map, and leaves every queue drained with the keys kept |
| PlaylistOrder.Orderer.ShiftRound | src/playlistOrder.js:23-26 | one `filter`: pushes the front of every queue in play in map order, shifts those queues in the map itself, and keeps in play those still non-empty |
| PlaylistOrder.Orderer.GetCurrentlyPlayingIndex | src/playlistOrder.js:34-39 | returns `FindFrom` from the remembered position and remembers the answer, `-1` included |
| PlaylistOrder.Orderer.OrderPlaylist | src/playlistOrder.js:96-107 | the pass leaves the map, the remembered position and the change list exactly as `Pass` computes them |

## Left out

- `getTracks` (lines 42-56) is left out. Network paging against the provider's API is I/O; the playlist is the parameter `tracksInfo`.
- `performChanges` (lines 89-94) is left out. It submits relocations to the provider, which is I/O, and its only call (line 106) is commented out.
- The playback API call in `getCurrentlyPlayingIndex` (lines 32-33) is left out, together with its error handler. The player's answer is the parameter `currentId`.
- `console.log` output is left out, being I/O only: lines 63 and 100 print and are dropped; on line 66 the `map` that builds the printed value is modelled (`Diff.ReadIndices`, it reads every slot's tag and throws on `undefined`), and only the printing is left out.
- `async`/`await` and the rejection handlers are left out. A pass is modelled as one synchronous step.
- `Diff.GetChanges` does not model update in place or aliasing: the working list is passed in and handed back. `orderPlaylist` drops both the list and the change list; `Orderer.OrderPlaylist` returns the change list instead.
- The implicit global `i` of `fixOldArray`'s loop is left out. Nothing else reads it.
- `trackLimit` (line 3) belongs to `getTracks`.
- JsArray.Slice: its contract states only the length bound. Its clamping is its definition, and `PlaylistOrder.SplitCovers` states what the two slices of a pass cover.
- Items are assumed to carry both an `added_by` and a `track` object, with string ids (`TrackInfo(addedBy, trackId)`). The code reads `added_by.id` (lines 7, 13, 83) and `track.id` (lines 14, 36, 84), and throws a `TypeError` when either object is `null`; a `null` track id, as local files have, also compares with `===` unlike any string. The model has neither error path.
- Two behaviours of the code worth knowing, both modelled as written:
  - `slice(currentIndex)` on line 101 includes the playing track in the unplayed part, so the playing track is regrouped and merged too.
  - A pass whose playing track is not found still runs, with `currentIndex == -1` (`PlaylistOrder.NotFoundMovesLastTrack` for a first pass).

## Findings

| source | as written | input that shows it | evidently intended | confidence | as-written member | corrected member |
|---|---|---|---|---|---|---|
| src/playlistOrder.js:1-2 | `usersTracksMap` is module-level and never cleared. After a pass the keys stay with drained queues, and the next merge pushes `undefined` for them; `getChanges` then reads `.index` of `undefined` | playlist A:a0, B:b0; first pass playing a0, second pass playing b0 | each pass groups its own unplayed tracks into a fresh map | not executed | PlaylistOrder.StaleMapBreaksNextPass | PlaylistOrder.FreshPassSucceeds |
| src/playlistOrder.js:58-78 | the repair splices by tag values as if they were positions (`splice(endIndex, 1)` and reinsertion at `startIndex + 1`), so the working list drifts from the target | playlist A:a0, A:a1, A:a2, B:b0, playing a0: changes `[1,3] [3,1] [1,2]`, list ends a0 b0 a2 a1, target a0 b0 a1 a2 | left-to-right relocation: move the item the target wants at each position there from further right, so that replaying the moves yields the target | not executed | PlaylistOrder.RepairMissesFairOrder | PlaylistOrder.FairPlan |

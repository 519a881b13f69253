# DessPlay in Dafny

DessPlay keeps a watch party in step: every client holds a replica of one shared
state, a server orders presence and playback, and files are fetched from peers
and verified block by block.  This project models the parts of it whose
correctness spans many calls, and proves what they promise.

- **Replicated state** (`Lww`, `LwwMap`, `CrdtState`, `Delivery`, `Migration`,
  `Compact`).  A cell keeps the greatest (timestamp, value); a collection is the
  vendored `crdts::Map` with its per-entry clocks, used with puts only.  `Stands`
  says what a collection means: for every origin it holds exactly a prefix of
  that origin's ops, with the last dot of every origin on every key and the
  winning write of every key.  Applying the next op and merging keep it, and two
  collections that stand for the same prefixes are equal.  `Delivery` runs any
  number of receivers over both transports at once.
- **Playlist** (`Identifier`, `Playlist`).  Dense positions and where an edit
  ends up.
- **Franchises** (`Graph`, `Franchise`, `SeriesWalk`, `FranchiseList`,
  `SeriesIdentity`).  A union-find, a graph walk that must agree with it, and the
  List entry that speaks for a whole franchise.
- **Server** (`Gating`, `Server`, `ServerEffects`, `ServerHandlers`).  The presence
  and playback machine: stamps, grace windows, seek authority, end of file, the
  List's next episode.  `Server` is the machine on values, one handler per step;
  `ServerEffects` says what the steps do to the registers, the List and the peers;
  `ServerHandlers` is the object whose methods take those steps and are proved to
  have those effects.
- **Outbox** (`Outbox`).  The bounded queue as interleaved atomic steps of many
  pushers and one writer.
- **Failed-attempt limiter** (`AuthLimit`).  The generic cell rate algorithm in
  its virtual-scheduling form (Annex A of ITU-T I.371).
- **Hashing and chunks** (`Ed2k`, `ChunkStore`).  The streaming ed2k hash and the
  store that trusts a block only by its hash.  MD4 is a parameter.
- **Spoilers** (`Spoiler`).  The double-bar parser, scrambling and marks.

`Accrual`, `Sorted` and `Wrappers` are shared helpers.

Timestamps, counters and byte counts are unbounded naturals; time is a natural
number of milliseconds that events carry.  Hash functions, value orders that
break ties, and the storage's answers are parameters, so every statement holds
for all of them.

Six properties fail for the code as it stands.  Each has a lemma at a state that
shows it and the exact condition under which it holds:

- An op applied out of its origin's order leaves a collection sound only if the
  skipped ops do not matter (`LwwMap.AppliesSoundlyIff`); otherwise a merge can
  drop another replica's write (`LwwMap.MaskedWriteIsLost`).  The in-order rule
  of the datagram lane is what rules this out, and position reports, which may
  skip, are the harmless case (`Delivery.PositionsHarmless`).
- A playlist entry placed between two that share one position does not always
  land there (`Playlist.PlacedEntryShows`, `Playlist.TiedNeighboursMisplace`).
- A chunk written into a block that is already verified is not refused
  (`ChunkStore.OverwriteGoesUnnoticed`); trust survives exactly if the block was
  not verified or the bytes are the same (`ChunkStore.RewriteKeepsTrustIff`).  An
  empty file shows full progress and never completes
  (`ChunkStore.EmptyFileNeverCompletes`).
- The judgement that opens an outage window and the opening are two critical
  sections; a pause between them leaves a window open over a paused room
  (`Server.PauseBetweenLeavesWindow`, with the exact condition in
  `Server.OpenKeeps`).
- Compaction empties the acknowledgements, so it can stop a video that plays
  (`Server.CompactionStopsTheVideo`, with the exact condition in
  `Server.CompactionPlaysOnIff`).
- With relations recorded from one side only, the seasons of one franchise need
  not resolve to one entry (`SeriesIdentity.OneSidedRelationsSplit`, with the
  exact condition in `SeriesIdentity.ClaimantsAgreeIff`).

Past its cap the limiter leaves new addresses untracked by design;
`AuthLimit.RejectionsAreChargedIff` says exactly when that happens, and
`AuthLimit.FullTableIsUnlimited` what follows: such an address is never throttled
while the table stays full.

## Model

| member | source | states |
|---|---|---|
| `Lww.LwwCell.constructor` | dessplay-core/src/lww.rs:70-80 | A new cell is empty. |
| `Lww.LwwCell.Apply` | dessplay-core/src/lww.rs:112-116 | Applying keeps the greater of the content and the op. |
| `Lww.LwwCell.Merge` | dessplay-core/src/lww.rs:126-130 | Merging is applying the other cell's winner, and nothing if it is empty. |
| `Lww.CellHoldsTheMaximum` | dessplay-core/src/lww.rs:43-51 | After any writes in any order, with any repeats, the cell holds the greatest (timestamp, value) it was given. |
| `LwwMap.LastDot` | vendor/crdts/src/map.rs:186-204 | The number of an origin's last write to a key: it is such a write and no later one is. |
| `LwwMap.ApplyNext` | vendor/crdts/src/map.rs:186-204 | Applying an origin's next op takes a collection that stands for some prefixes to the one that stands for one more op; its clock advances by exactly one. |
| `LwwMap.AppliesSoundlyIff` | vendor/crdts/src/map.rs:186-204 | Any op of an origin leaves the collection sound exactly if it is not past the next one, or every skipped op is harmless. |
| `LwwMap.MaskedWriteIsLost` | vendor/crdts/src/map.rs:237-315 | A replica that skipped a write makes a replica that has it lose it, whichever merges the other. |
| `LwwMap.MergeStands` | vendor/crdts/src/map.rs:237-315 | The merge of two sound collections stands for the larger prefix of every origin, has the joined clock and loses no key. |
| `LwwMap.MergeKey` | vendor/crdts/src/map.rs:237-315 | Every key of either side survives the merge with the last dots and the winning write of the joined prefixes. |
| `LwwMap.SameClockSameMap` | vendor/crdts/src/map.rs:26-66 | Two collections that stand for the same prefixes are equal, entry clocks included. |
| `LwwMap.MergeCommutes` | vendor/crdts/src/map.rs:237-315 | Merging is commutative on sound collections. |
| `LwwMap.MergeAssociates` | vendor/crdts/src/map.rs:237-315 | Merging is associative on sound collections. |
| `LwwMap.MergeRepeats` | vendor/crdts/src/map.rs:237-315 | Merging the same state again changes nothing. |
| `LwwMap.PutStands` | dessplay-core/src/state.rs:718-733 | A replica's own put extends its origin's log by one op and stays sound. |
| `LwwMap.StandsAsLogGrows` | vendor/crdts/src/map.rs:186-204 | A collection stays sound as origins issue more ops elsewhere. |
| `CrdtState.CrdtState.constructor` | dessplay-core/src/state.rs:38-98 | A new state is empty in every field. |
| `CrdtState.CrdtState.ApplyOp` | dessplay-core/src/state.rs:767-789 | Each kind of op changes its own field and no other. |
| `CrdtState.CrdtState.MergeState` | dessplay-core/src/state.rs:793-818 | Every field is joined with the other state's field of the same kind. |
| `CrdtState.CrdtState.ApplyIfOrderly` | dessplay-core/src/state.rs:1181-1233 | A collection op is applied exactly if its number is the origin's next; other ops always. |
| `CrdtState.CrdtState.ApplyMapReliable` | dessplay-core/src/state.rs:1244-1288 | The op is always applied and the answer says whether the clock moved. |
| `CrdtState.CrdtState.ApplyForBroadcast` | dessplay-core/src/state.rs:1308-1326 | A copy is sent on exactly if it is new on its lane, and the state is then as if it was applied, otherwise unchanged. |
| `CrdtState.StaleIsNoOp` | dessplay-core/src/state.rs:1334-1356 | An op that is not new changes nothing a reader can see. |
| `Delivery.DeliverKeeps` | dessplay-core/src/state.rs:1181-1326 | Any copy on either lane keeps every collection what prefixes of its origins make, the reliable copies absorbed, and each op sent on once or brought by a merge. |
| `Delivery.TakenIsNext` | dessplay-core/src/state.rs:1244-1326 | A copy that is taken is new, and is its origin's next op on that collection or, for positions only, a later one. |
| `Delivery.PositionsHarmless` | dessplay-core/src/state.rs:75-76 | Position reports passed over could not have mattered once a later one of the same origin is in. |
| `Delivery.PassedKeeps` | dessplay/src/actors/sync.rs:866-892 | A position that has no reliable copy may be passed over and the invariant stays. |
| `Delivery.MergeKeeps` | dessplay-core/src/state.rs:793-818 | Taking in another receiver's whole state keeps the same invariant, also when the reliable streams then resume past what it held. |
| `Delivery.RunKeeps` | dessplay-core/src/state.rs:1308-1326 | The invariant over every run of issues, lost, repeated, reordered and passed-over copies, merges and reconnects. |
| `Delivery.SentOnAtMostOnce` | dessplay-core/src/state.rs:1290-1326 | In every run no receiver sends one op on twice, and every collection is always exactly what a prefix of each origin's ops makes. |
| `Delivery.SentOnExactlyOnce` | dessplay-core/src/state.rs:1290-1326 | In every run a receiver has a collection op exactly if it sent it on once or a merge was first to bring it, never both; it has every op that its reliable streams are past. Positions, which may have no reliable copy, are excepted. |
| `Delivery.CaughtUpConverge` | dessplay-core/src/state.rs:1086-1117 | Two sound receivers with every reliable stream in full and every last position agree on every field. |
| `Delivery.ReplicasConverge` | dessplay-core/src/state.rs:1086-1117 | The same for any two receivers of any run. |
| `Delivery.IssueAppends` | dessplay-core/src/state.rs:718-733 | An issued collection op goes to the end of its origin's stream, numbered after all before it; nothing else changes. |
| `Delivery.ArrivalDelivers` | dessplay-core/src/state.rs:1244-1288 | A reliable copy moves one receiver on by one op, and that op is in its state. |
| `Delivery.DatagramDelivers` | dessplay-core/src/state.rs:1181-1233 | A datagram in sequence is applied, and one that would leave a gap changes nothing. |
| `Delivery.MergeDelivers` | dessplay-core/src/state.rs:793-818 | After a merge a receiver has all that either had, and a reconnect resumes past what either had received. |
| `Delivery.CanCatchUp` | dessplay-core/src/state.rs:1244-1288 | From any state of any run a receiver can come to have every op but skipped positions: nothing lost, repeated or merged stands in the way. |
| `Migration.SeriesActorsAreInjective` | dessplay-core/src/state.rs:265-299 | Different series get different migration actors. |
| `Migration.UpgradeRelationsMap` | dessplay-core/src/state.rs:300-316 | The loop rebuilds every written cell once, with its timestamp and upgraded value, under its key's own actor. |
| `Migration.MigrationCommutesWithMerge` | dessplay-core/src/state.rs:265-316 | Migrating two replicas and merging gives exactly the migration of their merge. |
| `Migration.SharedActorDestroys` | dessplay-core/src/state.rs:265-299 | With one actor for all keys, merging two migrated replicas would lose both rows. |
| `Identifier.OrderIsTotal` | vendor/crdts/src/identifier.rs:37-53 | The path order is a strict total order. |
| `Identifier.Compare` | vendor/crdts/src/identifier.rs:38-52 | The comparison loop decides that order, both ways and equality. |
| `Identifier.RationalBetween` | vendor/crdts/src/identifier.rs:17-24 | The ratio lies strictly between its ends, either of which may be open. |
| `Identifier.Between` | vendor/crdts/src/identifier.rs:73-129 | The loop computes the walk down both paths, with swapped ends and equal ends handled first. |
| `Identifier.BetweenIsBetween` | vendor/crdts/src/identifier.rs:73-129 | The new path is strictly between two different ends in either order, the end itself if they are equal, below an upper end, and above a lower end exactly if that has a node. |
| `Identifier.ActorsNeverCollide` | vendor/crdts/src/identifier.rs:73-129 | Two actors never make the same path, wherever they insert. |
| `Playlist.ShownIs` | dessplay-core/src/playlist.rs:48-66 | The display order holds exactly the live entries, ascending by position and hash. |
| `Playlist.PlaceIs` | dessplay-core/src/playlist.rs:155-162 | The place after an anchor is right behind it, the end if it is gone, and the front without one. |
| `Playlist.PlacedEntryShows` | dessplay-core/src/playlist.rs:143-173 | An entry placed after an anchor is shown there with all others in their old order exactly if its neighbours differ in position or its hash fits between theirs. |
| `Playlist.TiedNeighboursMisplace` | dessplay-core/src/playlist.rs:143-173 | Between two entries of one position an entry with a later hash is shown after both. |
| `Playlist.PositionIsNew` | dessplay-core/src/playlist.rs:143-173 | Among distinct positions the new one is distinct again. |
| `Playlist.PutsAfter` | dessplay-core/src/playlist.rs:143-173 | Placing an entry keeps all others and lands behind the anchor exactly if there is room, always so at the front and when no two entries share a position; in the latter case again none do. |
| `Playlist.FrontShows` | dessplay-core/src/playlist.rs:154-167 | Without an anchor the entry is shown first, whatever the positions, with all others behind it in their order. |
| `Playlist.WriteResolves` | dessplay-core/src/state.rs:824-832 | A write replaces the entry exactly if it is not older than the cell, and changes no other entry. |
| `Playlist.WritePlaces` | dessplay-core/src/playlist.rs:71-87 | On the cells: a write not older than the entry's cell places it so, an older one changes no entry. |
| `Playlist.PlaylistCells.constructor` | dessplay-core/src/state.rs:38-98 | A new playlist has no cells. |
| `Playlist.PlaylistCells.Set` | dessplay-core/src/state.rs:824-845 | A put is the actor's next op, one past its clock, with the given stamp and value, applied at once. |
| `Playlist.PlaylistCells.AddAfter` | dessplay-core/src/playlist.rs:71-87 | The op is the actor's next and places the entry behind the anchor exactly if there is room, first of all without an anchor, unless its cell holds a newer write; then no entry changes. |
| `Playlist.PlaylistCells.Push` | dessplay-core/src/playlist.rs:90-98 | Unless its cell holds a newer write, the entry is shown last behind all others in their order. |
| `Playlist.PlaylistCells.MoveAfter` | dessplay-core/src/playlist.rs:103-120 | Nothing happens exactly if the entry is absent or anchored to itself; otherwise it is placed as an added entry would be, to the front without an anchor, with its contents. |
| `Playlist.PlaylistCells.Rebalance` | dessplay-core/src/playlist.rs:124-138 | The loop rewrites the shown entries in order with flat positions. |
| `Playlist.PushShows` | dessplay-core/src/playlist.rs:90-98 | A pushed entry is shown last, whichever was last before, itself included. |
| `Playlist.RebalanceKeepsOrder` | dessplay-core/src/playlist.rs:122-138 | With a timestamp newer than every live cell, the same entries are shown in the same order at positions 0, 1, 2 and so on. |
| `Playlist.RebuildPlaylist` | dessplay-core/src/compact.rs:51-63 | Pushing a display order into an empty playlist shows the same entries with the same contents in the same order at flat positions, without tombstones, each stamped in its turn. |
| `Compact.RebuildMap` | dessplay-core/src/compact.rs:71-104 | A collection written again resolves to the same values, knows one actor, and each cell carries a stamp drawn in turn. |
| `Compact.ViewIsListed` | dessplay-core/src/state.rs:1081-1117 | The view of any state lists every file once with its contents. |
| `Compact.ViewReadsMaps` | dessplay-core/src/state.rs:1086-1117 | The view has exactly the winning value of every written cell, in all collections. |
| `Compact.ViewReadsPlaylist` | dessplay-core/src/state.rs:1086-1117 | It lists exactly the entries that were not removed, with their contents. |
| `Compact.ViewReadsRegisters` | dessplay-core/src/state.rs:1086-1117 | It shows what each register holds, and a paused, idle, silent room for registers never written. |
| `Compact.Rebuild` | dessplay-core/src/compact.rs:43-119 | The view of the fresh state, playlist and registers and sets and chat included, is the given view with the documented reductions and nothing else; every cell has one actor and a stamp drawn in turn. |
| `Compact.CutKeeps` | dessplay-core/src/compact.rs:25-42 | The reductions place by place: same entries in the same order, same registers, every kept value of every collection, the newest messages, and empty sets and marquee. |
| `Compact.RebuiltIsNewer` | dessplay-core/src/compact.rs:20-24 | If the first stamp is past every one in the old state, every stamp in the new state is past all of them. |
| `Compact.RebuildTwice` | dessplay-core/tests/compact_props.rs:77-84 | A second rebuild shows what the first does but for the stamp of what is playing. |
| `Compact.CompactState` | dessplay-rendezvous/src/server.rs:2161-2189 | Any state is replaced by one that shows its view with the reductions, all stamps newer than all before, and one actor. |
| `Franchise.Chase` | dessplay-core/src/franchise.rs:66-78 | Following parents ends at the tree's root, which is never larger. |
| `Franchise.UnionFind.constructor` | dessplay-core/src/franchise.rs:65 | The forest starts empty. |
| `Franchise.UnionFind.Find` | dessplay-core/src/franchise.rs:66-79 | Returns the root and points the series straight at it, an unknown series at itself; no other label moves. |
| `Franchise.UnionFind.Union` | dessplay-core/src/franchise.rs:80-88 | The larger root goes under the smaller and exactly its tree is relabelled. |
| `Franchise.UnionFind.AddRow` | dessplay-core/src/franchise.rs:90-103 | A row adds its series and joins it with each structural target, and no other. |
| `Franchise.UnionFind.AddFiles` | dessplay-core/src/franchise.rs:106-110 | Series known only through files become their own trees. |
| `Franchise.UnionFind.Flatten` | dessplay-core/src/franchise.rs:111-114 | Afterwards every series points straight at its root. |
| `Franchise.UnionKeepsGroups` | dessplay-core/src/franchise.rs:80-88 | If labels group the edges so far, joining two trees groups them with the new edge. |
| `Franchise.SameLabelIff` | dessplay-core/src/franchise.rs:52-60 | Two series have one label exactly if structural edges connect them. |
| `Franchise.SeriesComponents` | dessplay-core/src/franchise.rs:63-115 | The result holds exactly the known series, each with the smallest series connected to it. |
| `Franchise.ComponentsPartition` | dessplay-core/src/franchise.rs:52-60 | Roots are known and their own roots, and two series share one exactly if connected. |
| `SeriesWalk.Spread` | dessplay-core/src/franchise.rs:135-139 | A row's structural targets are added and the new ones, and only those, queued. |
| `SeriesWalk.ReachableComponent` | dessplay-core/src/franchise.rs:128-142 | The walk returns exactly the series reachable along structural edges, and ends on cyclic graphs. |
| `SeriesWalk.WalkAgreesWithComponents` | dessplay-core/src/franchise.rs:117-127 | The walk stays inside the union-find component, and is all of it when relations are recorded from both sides. |
| `SeriesWalk.LowestPrequel` | dessplay-core/src/franchise.rs:157-164 | The prequel edge with the lowest id, if there is one. |
| `SeriesWalk.SeasonOrdinal` | dessplay-core/src/franchise.rs:152-173 | The length of the whole chain of lowest prequels without a repeat. |
| `SeriesWalk.WholeChainUnique` | dessplay-core/src/franchise.rs:144-151 | There is one such chain. |
| `FranchiseList.GroupBy` | dessplay-core/src/franchise.rs:206-220 | One pass gives every key exactly its files, in hash order, and no empty group. |
| `FranchiseList.FoldTitles` | dessplay-core/src/franchise.rs:227-247 | One pass keeps, per root, the row with the earliest year, the lowest id on ties, a yearless one only if none has a year, and the earliest year. |
| `FranchiseList.BestIsUnique` | dessplay-core/src/franchise.rs:227-247 | One row gives a franchise its title. |
| `FranchiseList.Franchises` | dessplay-core/src/franchise.rs:176-308 | Every file's franchise is listed once, by title and then key, and each has exactly its files, its whole component as members, the held series by year, and that title and year. |
| `FranchiseList.FilesPartition` | dessplay-core/src/franchise.rs:176-308 | A file is listed exactly if it has metadata, in one franchise only; members of different franchises are disjoint whole components. |
| `SeriesIdentity.CanonicalIsTotal` | dessplay-core/src/series_identity.rs:54-67 | The canonical order is a strict total order. |
| `SeriesIdentity.CanonicalLeads` | dessplay-core/src/series_identity.rs:54-67 | The first of any linked entries is one made by a person if there is any, then the one linked to the season furthest along, then the lowest id. |
| `SeriesIdentity.NewIndex` | dessplay-core/src/series_identity.rs:91-123 | The one-pass index holds every link, every structural neighbour, and the lowest claiming id for every file and name. |
| `SeriesIdentity.ClaimantsThrough` | dessplay-core/src/series_identity.rs:126-136 | Through the index, the claimants are the entries linked to a reachable season or one step before; the first leads them all, a person's entry before a derived one, then the later season, then the lower id. |
| `SeriesIdentity.Resolve` | dessplay-core/src/series_identity.rs:139-153 | The leading claimant, else the lowest entry attached by hand, else the lowest with the name. |
| `SeriesIdentity.SameClaimants` | dessplay-core/src/series_identity.rs:28-48 | If the linked seasons of one franchise are seen from all its seasons, its series have the same claimants, whatever the rest of the library is like. |
| `SeriesIdentity.ClaimantsAgreeIff` | dessplay-core/src/series_identity.rs:28-48 | All seasons of a franchise have the same claimants exactly if, from each of them, each of its linked seasons is reached or is one structural step before. |
| `SeriesIdentity.TwoSidedIsSeen` | dessplay-core/src/franchise.rs:117-127 | A franchise whose own relations are recorded from both sides meets that condition. |
| `SeriesIdentity.TwoSidedReach` | dessplay-core/src/franchise.rs:117-127 | In such a franchise the walk from any season gets to every other. |
| `SeriesIdentity.OneSidedRelationsSplit` | dessplay-core/src/franchise.rs:117-127 | A chain recorded from one side only, linked at its first season: the last season has no claimant. |
| `SeriesIdentity.FranchiseResolvesTogether` | dessplay-core/src/series_identity.rs:139-153 | Under that condition, if any entry is linked in a franchise, all its files resolve to one of the claimants, the same one. |
| `SeriesIdentity.FoldIsStrongest` | dessplay-core/src/derive.rs:101-112 | The fold is Watching if any preference is, else NotWatching if any is, else Maybe. |
| `SeriesIdentity.FranchiseWatchesTogether` | dessplay-core/src/derive.rs:80-113 | A user's state for any file of a linked franchise is the strongest preference on any of its entries. |
| `SeriesIdentity.ResolveOrBuild` | dessplay-core/src/series_identity.rs:221-232 | The resolved entry, else a fresh one from the metadata: linked under the id its series derives, or known by its name under the id that derives; nothing without metadata. |
| `SeriesIdentity.CreatedEntryIsFound` | dessplay-core/src/series_identity.rs:185-199 | Once stored, the created entry is what its file resolves to. |
| `Gating.ActiveIff` | dessplay-core/src/derive.rs:481-485 | The video plays exactly if the intent says so, a file is set and nobody blocks. |
| `Gating.PresentBlocksIff` | dessplay-core/src/derive.rs:165-213 | A present viewer blocks exactly if interactive, not opted out of the series, and paused by hand, or not marked at all and with the file reported missing or downloading; the reason is the pause first, then the file. |
| `Gating.AwayAndIdle` | dessplay-core/src/derive.rs:217-250 | Nobody marked away blocks, and with nothing playing only a present viewer's own pause does. |
| `Gating.SeederNeverBlocks` | dessplay-core/src/derive.rs:217-243 | A peer that only seeds never blocks. |
| `Gating.MergeKnownOffline` | dessplay-core/src/derive.rs:308-334 | Exactly the users seen within the last 604,800,000 milliseconds and without an entry are added, as departed viewers; entries stay. |
| `Gating.KnownBlock` | dessplay-core/src/derive.rs:294-307 | A real entry is never shadowed, and an added user blocks exactly if committed and not excused. |
| `Gating.WindowKeepsPlaying` | dessplay-core/src/derive.rs:256-262 | A drop with a window makes nobody block at that instant, known-offline users included. |
| `Gating.AbsentCommittedBlocks` | dessplay-core/src/derive.rs:264-277 | Without a window, an absent committed user blocks exactly if neither acknowledged nor marked away. |
| `Gating.OthersNeverBlockAway` | dessplay-core/src/derive.rs:217-234 | Being away blocks exactly for committed, unexcused viewers outside a window. |
| `Gating.RejoinLaggard` | dessplay-core/src/derive.rs:383-404 | The furthest behind of those within the grace span of everyone, the first by name on ties; none exactly if nobody has the file loaded. |
| `Server.Stamp` | dessplay-rendezvous/src/server.rs:234-243 | A stamp is the clock, or one past the last stamp if the clock is not past that. |
| `Server.PutIntentWins` | dessplay-rendezvous/src/server.rs:368-385 | A server write to the intent always takes effect and keeps the floor. |
| `Server.PutNowPlayingWins` | dessplay-rendezvous/src/server.rs:368-385 | The same for now-playing. |
| `Server.PutAuthorityWins` | dessplay-rendezvous/src/server.rs:368-385 | The same for the seek authority. |
| `Server.ForcePauseDone` | dessplay-rendezvous/src/server.rs:396-410 | A forced pause pauses, ends every window and leaves presence alone; over a window whose file plays the lead goes to whoever is furthest behind in it, otherwise it stays. |
| `Server.ReconcileKeeps` | dessplay-rendezvous/src/server.rs:493-517 | Whatever a client wrote, a window stays as it is while its file plays; otherwise all are closed, and after a pause the lead goes to whoever is furthest behind. |
| `Server.OpenKeeps` | dessplay-rendezvous/src/server.rs:449-469 | Opening a window keeps windows well-formed, and keeps them playing on exactly if the room plays the judged file at that moment. |
| `Server.RegisterKeeps` | dessplay-rendezvous/src/server.rs:1219-1258 | A return closes that user's window and, if it was the last, forgets the file. |
| `Server.LeaveKeeps` | dessplay-rendezvous/src/server.rs:1297-1396 | Every end of a session keeps the invariant. |
| `Server.TakeAuthorityKeeps` | dessplay-rendezvous/src/server.rs:598-615 | Exactly if that user leads, by name or as anchor, the lead goes to the server. |
| `Server.SweepGraceKeeps` | dessplay-rendezvous/src/server.rs:1040-1053 | After a sweep no window has run out; if one had, everyone is paused and none is open. |
| `Server.EndOfFileKeeps` | dessplay-rendezvous/src/server.rs:1976-2041 | A valid report moves to the next entry, paused, with no window open. |
| `Server.NextAfterIs` | dessplay-rendezvous/src/server.rs:2003-2008 | The entry after each entry of a playlist is the next in order, and none after the last. |
| `Server.NothingAfter` | dessplay-rendezvous/src/server.rs:2003-2008 | There is none after a file that is not listed. |
| `Server.MarkKeeps` | dessplay-rendezvous/src/server.rs:2048-2072 | A manual mark keeps the invariant and touches nothing playback reads. |
| `Server.CompactKeeps` | dessplay-rendezvous/src/server.rs:2161-2189 | Compaction keeps the invariant, presence, windows and all that gating sees, except that no acknowledgement is left. |
| `Server.CompactionPlaysOnIff` | dessplay-core/src/compact.rs:39-40 | A playing room still plays after compaction exactly if nobody, known offline users included, was excused only by an acknowledgement. |
| `Server.CompactionStopsTheVideo` | dessplay-core/src/compact.rs:39-40 | A room that stops: its one committed viewer has left and was acknowledged. |
| `Server.RunKeeps` | dessplay-rendezvous/src/server.rs:158-218 | Over every run: no timestamp is past the last stamp; a file is recorded exactly if a window is open; windows belong to absent viewers; while one is open the room plays its file. |
| `Server.ReachableKeeps` | dessplay-rendezvous/src/server.rs:730-745 | The same from any stored state a server starts on. |
| `Server.StampsAscend` | dessplay-rendezvous/src/server.rs:234-250 | Stamps never go back over any run, whatever the clock does. |
| `Server.DropDichotomy` | dessplay-rendezvous/src/server.rs:1375-1396 | When a viewer's link is lost, either the video was playing and still plays at that instant with a window on them, or it is paused and no window is open; in both cases they lose the authority. |
| `Server.DepartureNeverPauses` | dessplay-rendezvous/src/server.rs:995-1034 | A later departure changes no register but the authority, which no departed viewer keeps. |
| `Server.AnchorsWhenResumed` | dessplay-rendezvous/src/server.rs:553-594 | Exactly when a room that follows the laggard plays that file again, it is anchored to a present viewer with the file loaded: the furthest behind that an outage explains, the first by name on ties; to the server if nobody has it loaded. |
| `Server.LoadedAre` | dessplay-core/src/derive.rs:359-381 | Loaded are the present viewers who hold enough of the file and last reported a position in it. |
| `Server.EofAdvancesOnce` | dessplay-rendezvous/src/server.rs:1971-2041 | In every run, between two reports that both end one file, some event takes the room from not playing the file to playing it: a client's write of it, a merge, or the end of the file before it. |
| `Server.OnlyThosePutOn` | dessplay-rendezvous/src/server.rs:1971-2041 | No other event puts a file on. |
| `Server.EpisodeBumpsOnce` | dessplay-rendezvous/src/server.rs:2079-2140 | In every run a List entry is bumped again from an episode, or an earlier one, only after a client set its next episode back: repeated reports and marks of one file bump once. |
| `Server.OthersLeaveEpisodes` | dessplay-rendezvous/src/server.rs:2079-2140 | Only the end of a file, a mark, or a client's write or merge moves a next episode. |
| `Server.RunSound` | dessplay-rendezvous/src/server.rs:158-218 | Every run also keeps the playlist without repeats and no List cell newer than the floor. |
| `Server.PauseBetweenLeavesWindow` | dessplay-rendezvous/src/server.rs:449-469 | A pause handled between the judgement and the opening leaves a window open over a paused room. |
| `ServerEffects.WriteTakesEffect` | dessplay-rendezvous/src/server.rs:1749-1821 | A winning client write is in force and changes nothing else that is read. |
| `ServerEffects.AppliesIff` | dessplay-core/src/state.rs:1334-1356 | A write wins exactly if nothing at least as new is there. |
| `ServerEffects.SettleLeads` | dessplay-rendezvous/src/server.rs:493-594 | After a write or merge: a new choice of file makes the server lead, a pause under a window hands over to the laggard, and windows stay exactly if they play on. |
| `ServerEffects.MergeTakesTheLater` | dessplay-rendezvous/src/server.rs:1916-1963 | A merge takes the later write of every register, next episode and watched flag. |
| `ServerEffects.EndOfFileEffect` | dessplay-rendezvous/src/server.rs:1976-2041 | A valid report moves to the next entry by index or to none, paused, led by the server; the file counts as watched, no other flag moves, and the waiting entry is bumped. |
| `ServerEffects.MarkReads` | dessplay-rendezvous/src/server.rs:2048-2072 | After a mark its flag reads back and no other flag moved. |
| `ServerEffects.BumpedIff` | dessplay-rendezvous/src/server.rs:2079-2140 | An entry moves on by one exactly if it claims the file and waits for the file's episode. |
| `ServerEffects.CompactionKeepsList` | dessplay-core/src/compact.rs:64-68 | Compaction keeps every next episode and every set flag and drops the unset ones. |
| `ServerEffects.CompactionKeepsRoom` | dessplay-rendezvous/src/server.rs:2161-2189 | It keeps what plays, the intent, the lead, the playlist and the positions. |
| `ServerEffects.PromotesIff` | dessplay-rendezvous/src/server.rs:995-1034 | A lost peer departs exactly when thirty seconds have passed. |
| `ServerEffects.SweepEffect` | dessplay-rendezvous/src/server.rs:995-1034 | A sweep departs exactly those, and the server takes the lead exactly if a viewer among them had it. |
| `ServerEffects.LeavePeers` | dessplay-rendezvous/src/server.rs:1297-1396 | Leaving changes the presence of that peer alone. |
| `ServerEffects.SeederLeaves` | dessplay-rendezvous/src/server.rs:1297-1396 | A peer that only seeds leaves playback, windows and everyone else as they are. |
| `ServerHandlers.Shared.constructor` | dessplay-rendezvous/src/server.rs:730-745 | A restart on any stored state takes its floor from it and keeps the invariant. |
| `ServerHandlers.Shared.CloseGraceWindows` | dessplay-rendezvous/src/server.rs:473-481 | Closes every window and says whether any was open. |
| `ServerHandlers.Shared.ForceAPause` | dessplay-rendezvous/src/server.rs:396-410 | Everything is paused, every window closed, presence kept, and over a window whose file played the lead goes to the laggard. |
| `ServerHandlers.Shared.ReconcileGraceWindows` | dessplay-rendezvous/src/server.rs:493-517 | Windows that play on are untouched; otherwise all are closed and no register but the authority moves. |
| `ServerHandlers.Shared.OpenGraceWindow` | dessplay-rendezvous/src/server.rs:449-469 | Opens a window exactly if the video was playing with the leaver there and they are still lost on that connection. |
| `ServerHandlers.Shared.PinRejoinAnchor` | dessplay-rendezvous/src/server.rs:553-594 | Changes the authority only, and only while the video really plays. |
| `ServerHandlers.Shared.HandleJoin` | dessplay-rendezvous/src/server.rs:1219-1258 | The user is present with no window, everyone else as before, and the recorded file stays exactly if another window is open. |
| `ServerHandlers.Shared.HandleLeave` | dessplay-rendezvous/src/server.rs:1297-1396 | A superseded connection changes nothing. Only that peer's presence changes. A viewer who leaves loses the lead; a lost link while the video plays opens a window and changes nothing gating sees, any other leaving pauses and ends all windows. A seeder changes nothing else. |
| `ServerHandlers.Shared.HandleDepartedTick` | dessplay-rendezvous/src/server.rs:995-1034 | Exactly those due depart, the server takes the lead exactly if a viewer among them had it, and playback and windows stay. |
| `ServerHandlers.Shared.HandleGraceTick` | dessplay-rendezvous/src/server.rs:1040-1053 | If a window ran out, everyone is paused, none is open and the laggard leads; otherwise nothing changes. |
| `ServerHandlers.Shared.HandleOp` | dessplay-rendezvous/src/server.rs:1749-1821 | The floor passes the op's stamp; a stale or losing op changes nothing; a winning one is in force and moves nothing else, a new choice of file makes the server lead, and a pause under a window the laggard. |
| `ServerHandlers.Shared.HandleMerge` | dessplay-rendezvous/src/server.rs:1916-1963 | The floor passes every stamp of the client's state, and gating then sees the join of both. |
| `ServerHandlers.Shared.HandleEof` | dessplay-rendezvous/src/server.rs:1976-2041 | A report that does not end the playing file changes nothing; one that does moves to the next entry by index or to none, paused, led by the server, without windows, marks the file watched, and bumps the entry that waited for this episode and no other. |
| `ServerHandlers.Shared.HandleMark` | dessplay-rendezvous/src/server.rs:2048-2072 | The flag reads back and no other moved; playback sees nothing; a repeated mark changes nothing, and a new watched flag bumps as the end of the file does. |
| `ServerHandlers.CloseAll` | dessplay-rendezvous/src/server.rs:473-481 | The loop clears every window and nothing else and says whether any was open. |
| `Outbox.StepKeeps` | dessplay-rendezvous/src/outbox.rs:106-166 | Every atomic step of a pusher or the writer keeps the accounting, order, bound and once-only invariants. |
| `Outbox.RunKeeps` | dessplay-rendezvous/src/outbox.rs:106-166 | The same over every interleaving. |
| `Outbox.CounterIsExact` | dessplay-rendezvous/src/outbox.rs:106-166 | While the writer runs, the counter is the bytes in the channel, in its hand and counted by pushers; it never underflows. |
| `Outbox.BacklogIsBounded` | dessplay-rendezvous/src/outbox.rs:106-123 | Admitted bytes are within the limit, or are one frame that was let in alone. |
| `Outbox.WritesInOrder` | dessplay-rendezvous/src/outbox.rs:149-166 | Written frames are a prefix of the enqueue order, and all of it when the writer waits on an empty channel. |
| `Outbox.OverflowIsEarnedOnce` | dessplay-rendezvous/src/outbox.rs:125-144 | The overflow action runs at most once, only after closing, and the first refusal by a live writer was over the limit on a backlog. |
| `Outbox.OverflowActs` | dessplay-rendezvous/src/outbox.rs:125-144 | Once refused calls have returned the outbox is closed, and while the writer runs the action has run exactly once; only an overflow closes it then. |
| `Outbox.RefusalActs` | dessplay-rendezvous/src/outbox.rs:106-144 | A frame past the limit is refused, uncounted, closes the outbox and runs the action within its own call. |
| `Outbox.CallReturns` | dessplay-rendezvous/src/outbox.rs:104-144 | A push never waits: from any state it returns after at most four of its own steps, whatever the others do. |
| `Outbox.WriterDelivers` | dessplay-rendezvous/src/outbox.rs:149-166 | The writer writes the oldest frame, uncounts it and is ready for the next. |
| `Outbox.WriterFails` | dessplay-rendezvous/src/outbox.rs:149-166 | A failed write closes the outbox, writes nothing more and ends the writer. |
| `Outbox.WriterStops` | dessplay-rendezvous/src/outbox.rs:149-166 | A writer that finds the outbox closed drops what is left and ends. |
| `Outbox.ClosedWritesNoMore` | dessplay-rendezvous/src/outbox.rs:149-166 | Once closed, no further frame is written, over every run. |
| `Outbox.GoneRefuses` | dessplay-rendezvous/src/outbox.rs:117-121 | After the writer is gone a frame is neither delivered nor counted. |
| `Outbox.EmptyTakesAnyFrame` | dessplay-rendezvous/src/outbox.rs:106-123 | An idle, empty queue takes a frame of any size. |
| `Outbox.ClosedStays` | dessplay-rendezvous/src/outbox.rs:125-144 | Closing is never undone. |
| `AuthLimit.AuthLimiter.constructor` | dessplay-rendezvous/src/auth_limit.rs:73-80 | A new limiter tracks nobody. |
| `AuthLimit.AuthLimiter.Judge` | dessplay-rendezvous/src/auth_limit.rs:85-103 | The verdict and the new table are those of the judgement. |
| `AuthLimit.AuthLimiter.MakeRoom` | dessplay-rendezvous/src/auth_limit.rs:107-112 | Sweeps refilled addresses at the threshold and says whether there is room. |
| `AuthLimit.JudgeMovesDebt` | dessplay-rendezvous/src/auth_limit.rs:85-103 | A charged failure adds one refill to one address's debt; nothing else changes any debt. |
| `AuthLimit.SweepKeepsDebt` | dessplay-rendezvous/src/auth_limit.rs:107-112 | Sweeping changes no debt, now or later. |
| `AuthLimit.RateBound` | dessplay-rendezvous/src/auth_limit.rs:85-112 | In every window of every run an address is charged at most the configured burst, or one if that is zero, plus one per refill in the span. |
| `AuthLimit.BurstIsGranted` | dessplay-rendezvous/src/auth_limit.rs:85-103 | A fresh address gets exactly that burst of guesses at once, no less and no more. |
| `Accrual.RefillsMultiply` | dessplay-rendezvous/src/auth_limit.rs:85-103 | The capacity, kept as a sum of refills, is the refill time multiplied by the burst. |
| `AuthLimit.ThrottledOnlyWhenSpent` | dessplay-rendezvous/src/auth_limit.rs:85-103 | A throttled address had at least the burst of charged failures in the last burst of refills. |
| `AuthLimit.RecentCounts` | dessplay-rendezvous/src/auth_limit.rs:85-103 | What counts as recent is the number of charges within the span. |
| `AuthLimit.RejectionsAreChargedIff` | dessplay-rendezvous/src/auth_limit.rs:95-112 | Every rejection of an address is charged exactly if each wrong guess it got to make found it tracked or found room after a sweep. |
| `AuthLimit.FewAddressesNeverFill` | dessplay-rendezvous/src/auth_limit.rs:56-61 | A run with as many addresses as the table tracks, those tracked before included, always finds room. |
| `AuthLimit.FullTableIsUnlimited` | dessplay-rendezvous/src/auth_limit.rs:56-61 | An untracked address whose wrong guesses never find room has all of them rejected and none charged, whoever else tries in between. |
| `AuthLimit.UnexpiredStaysFull` | dessplay-rendezvous/src/auth_limit.rs:56-61 | A table full of budgets that outlast the run never gives it room, whatever any address attempts meanwhile. |
| `AuthLimit.SweepingIsInvisible` | dessplay-rendezvous/src/auth_limit.rs:107-112 | While all wrong guesses find room, sweeping changes no verdict of any run. |
| `AuthLimit.LimiterRefinesUnbounded` | dessplay-rendezvous/src/auth_limit.rs:85-112 | From the start, while all wrong guesses find room, the limiter gives the verdicts of one that never forgets. |
| `Ed2k.RootFromBlocks` | dessplay-core/src/hash.rs:104-119 | The loop gives the lone block's hash, or the hash of all digests with the trailing empty block at exact multiples. |
| `Ed2k.HashReader` | dessplay-core/src/hash.rs:50-90 | However the reader cuts its input, the result is the red-variant root, the digest of every block and the size; an error is an error. |
| `Ed2k.SplitIndex` | dessplay-core/src/hash.rs:50-90 | There are max(1, ceil(size / block)) blocks, and block b is bytes from b blocks on. |
| `Ed2k.RootFromOwnBlocks` | dessplay-core/src/hash.rs:104-119 | The root computed from a file's own block hashes is its red-variant root. |
| `ChunkStore.CountsAreExact` | dessplay/src/chunkstore.rs:36-40 | The chunk and block counts cover the file with less than one to spare. |
| `ChunkStore.ChunksAlign` | dessplay/src/chunkstore.rs:41-58 | No chunk straddles two blocks. |
| `ChunkStore.ChunkStore.Create` | dessplay/src/chunkstore.rs:85-101 | A new store is zeroed, unwritten and unverified. |
| `ChunkStore.ChunkStore.Open` | dessplay/src/chunkstore.rs:103-133 | An existing file is resumed as written and unverified, at the given size. |
| `ChunkStore.ChunkStore.BlockHashesMatch` | dessplay/src/chunkstore.rs:164-166 | Accepts a list exactly if it has the right count and the expected root. |
| `ChunkStore.ChunkStore.WriteChunk` | dessplay/src/chunkstore.rs:170-182 | A chunk of the right length changes exactly its bytes and its bit; any other changes nothing. |
| `ChunkStore.ChunkStore.Verify` | dessplay/src/chunkstore.rs:201-226 | Each filled block is verified or cleared by its hash, and the summary counts them. |
| `ChunkStore.ChunkStore.IsComplete` | dessplay/src/chunkstore.rs:229-231 | Complete exactly if there are blocks and all are verified. |
| `ChunkStore.ChunkStore.NeededChunks` | dessplay/src/chunkstore.rs:263-267 | Exactly the chunks neither written nor in a verified block, ascending. |
| `ChunkStore.ChunkStore.ProgressBps` | dessplay/src/chunkstore.rs:235-247 | The verified share in basis points. |
| `ChunkStore.RunKeepsTrust` | dessplay/src/chunkstore.rs:170-226 | Over every run that spares verified blocks, every verified block has its hash. |
| `ChunkStore.RewriteKeepsTrustIff` | dessplay/src/chunkstore.rs:170-182 | A write leaves the store trustworthy under every hash function and list it was trustworthy under exactly if its block was not verified, or the bytes are those already there. |
| `ChunkStore.OverwriteGoesUnnoticed` | dessplay/src/chunkstore.rs:170-182 | A verified one-byte file is overwritten, stays complete, and no longer has its root. |
| `ChunkStore.CompletionMeansTheFile` | dessplay/src/chunkstore.rs:229-231 | A complete store's bytes have the expected root and block hashes. |
| `ChunkStore.DownloadCompletes` | dessplay/src/chunkstore.rs:170-231 | Right chunks in any order, repeated, with passes anywhere between: once every chunk came, one more pass completes the store, and it holds the file. |
| `ChunkStore.WrittenIsNotNeeded` | dessplay/src/chunkstore.rs:263-267 | A written chunk is asked for no more, and no other chunk is affected. |
| `ChunkStore.NothingNeededIsComplete` | dessplay/src/chunkstore.rs:263-267 | After a verify pass of a non-empty file, nothing is needed exactly if it is complete. |
| `ChunkStore.ResumeTrustsRightBlocks` | dessplay/src/chunkstore.rs:103-133 | Resuming verifies exactly the blocks that match their hash. |
| `ChunkStore.FullProgressIsComplete` | dessplay/src/chunkstore.rs:235-247 | For a non-empty file progress is 10000 exactly if complete. |
| `ChunkStore.ProgressIsTheShare` | dessplay/src/chunkstore.rs:235-247 | Progress is the verified share of the bytes in basis points, rounded down. |
| `ChunkStore.EmptyFileNeverCompletes` | dessplay/src/chunkstore.rs:229-247 | An empty file shows full progress and is never complete. |
| `Spoiler.Find` | dessplay-core/src/spoiler.rs:46-50 | The nearest double bar from the start on, or none exactly if there is none. |
| `Spoiler.RunIsShort` | dessplay-core/src/spoiler.rs:32-41 | The closer of a run is the nearest double bar after its opener. |
| `Spoiler.Parse` | dessplay-core/src/spoiler.rs:42-69 | The scan gives the text up to each first run, the run, and the rest, with empty runs and unmatched openers literal. |
| `Spoiler.ParseLosesNothing` | dessplay-core/src/spoiler.rs:32-41 | Putting the bars back rebuilds every input. |
| `Spoiler.SegmentsAreProper` | dessplay-core/src/spoiler.rs:32-41 | No segment is empty and no hidden run holds a double bar. |
| `Spoiler.NoRunIsMissed` | dessplay-core/src/spoiler.rs:32-41 | Text never holds a run, not even together with the bars that open the next one. |
| `Spoiler.RunWithin` | dessplay-core/src/spoiler.rs:42-69 | A run found in any part of a message is the one the scan finds from there. |
| `Spoiler.AddMarks` | dessplay-core/src/spoiler.rs:196-209 | The loop puts the chosen mark, if any, behind each visible character. |
| `Spoiler.ZalgoSplits` | dessplay-core/src/spoiler.rs:187-195 | A run drawn in pieces at matching offsets carries the marks it has when drawn whole. |
| `Spoiler.ScrambleShowsOnlyShape` | dessplay-core/src/spoiler.rs:100-134 | A scrambled run keeps structure and the class of every other character, holds only ASCII and whitespace, and is the same for all hidden runs of one shape. |
| `Spoiler.ScrambledByClass` | dessplay-core/src/spoiler.rs:100-134 | The 25 whitespace characters and the 32 of ASCII punctuation stand; a digit gives a digit, a capital a capital, anything else a small letter. |
| `Spoiler.StripRestores` | dessplay-core/src/spoiler.rs:187-209 | Marks come off again from any text that had none. |
| `Spoiler.ScrambleSurvivesMarks` | dessplay-core/src/spoiler.rs:113-123 | Scrambling keeps the length, and stripping the marks off any scrambled run gives it back. |

## Left out

- Transports, relay streams, TLS, tasks and timers: only the ordering they give is modelled, in-order reliable streams and lossy datagrams.
- SQL storage and schema migrations; what the storage returns is a parameter.
- Snapshot encodings and the frozen old layouts, apart from the relations map migration.
- Removals of the vendored map and its deferred table: this program only puts, so the table stays empty.
- The chat list's order: the chat is a set of positions in `CrdtState`, and a list of messages in `Compact`.
- The differing key and value types of the twelve collections: they share one type parameter each.
- Lock-level interleavings of server handlers, except the two sections that open a window; a server write that stamps before it locks is one step here.
- The AniDB worker; which List entry claims a file, and the episode number read from its metadata or name, is a parameter of the server's state.
- The median and the floating-point threshold of a saved position; whether one is stored is an input.
- The address reduction of the limiter, an arbitrary key function here.
- The stub title of a franchise with neither rows nor names, which no listed franchise can need; the order of strings is a parameter.
- The franchise cache and its fingerprints.
- The index lists of `SeriesEntryIndex` are sets, since claimants are sorted and deduplicated before use; the season ordinal is a parameter there.
- The store's I/O errors, its playable window and the bit layout of its bitfields.
- SeriesWalk.SeasonOrdinal: does not saturate at 32 bits, which would need a chain of more than four billion rows.
- Identifier.Between: ratios are reals, so the growth of the rationals is not modelled.
- ChunkStore.CountsAreExact: holds for sizes whose chunk count fits 32 bits; larger sizes wrap in the code.
- ChunkStore.CompletionMeansTheFile: hash lists longer than 2^32 entries are not modelled.
- AuthLimit.RateBound: refill must be positive, and the overflow of very large durations is not modelled.
- The hash behind a scramble and the character database beyond ASCII: both are parameters, unconstrained.

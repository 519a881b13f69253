/** What the server's steps do, said of the registers, the List and the peers
    themselves. */
module ServerEffects {
  import opened Gating
  import opened Lww
  import opened Server
  import opened Sorted
  import opened Wrappers

  // ---- Client writes.

  /** The write's value is in force and nothing else a reader sees has changed. */
  ghost predicate TakesEffect<F>(room: Room<F>, room': Room<F>, w: Write<F>) {
    && room'.Playing() == (if w.SetNowPlaying? then w.playing.value else room.Playing())
    && room'.Look().intent == (if w.SetIntent? then w.intent.value else room.Look().intent)
    && (forall e :: room'.list.NextOf(e) == if w.SetNext? && e == w.entry then w.episode.value else room.list.NextOf(e))
    && room'.list.watched == room.list.watched
    && room'.newest >= room.newest && (w.SetNext? || w.SetOther? ==> room'.newest >= w.Time())
    && (if w.SetOther?
        then room'.all == w.all && room'.positions == w.positions && room'.playlist == w.playlist &&
             room'.list.claim == w.claim
        else room'.all == room.all && room'.positions == room.positions && room'.playlist == room.playlist &&
             room'.list.claim == room.list.claim)
  }

  lemma WriteTakesEffect<F>(ties: Ties<F>, room: Room<F>, w: Write<F>)
    requires Applies(ties, room, w)
    ensures TakesEffect(room, Written(ties, room, w), w)
    ensures Leader(Written(ties, room, w)) == if w.SetAuthority? then Some(w.authority.value) else Leader(room)
  {
  }

  /** A copy changes nothing exactly if what it would replace is at least as new. */
  lemma AppliesIff<F>(ties: Ties<F>, room: Room<F>, w: Write<F>)
    ensures w.SetNowPlaying? ==>
              (Applies(ties, room, w) <==>
                 room.nowPlaying.None? || Before(ties.nowPlaying, room.nowPlaying.value, w.playing))
    ensures w.SetIntent? ==>
              (Applies(ties, room, w) <==> room.intent.None? || Before(ties.intent, room.intent.value, w.intent))
    ensures w.SetAuthority? ==>
              (Applies(ties, room, w) <==>
                 room.authority.None? || Before(ties.authority, room.authority.value, w.authority))
    ensures w.SetNext? ==>
              (Applies(ties, room, w) <==>
                 w.entry !in room.list.next || Before(ties.episodes, room.list.next[w.entry], w.episode))
    ensures w.SetOther? ==> (Applies(ties, room, w) <==> Unique(w.playlist))
  {
  }

  /** Who leads once the server has settled after a write or a merge.  Whatever was
      chosen to play, the server leads.  A pause under an open window hands over to
      whoever is furthest behind; otherwise only a resumed outage is anchored. */
  lemma SettleLeads<F>(ties: Ties<F>, s: State<F>, moved: bool, saved: bool, clock: Clock, known: seq<KnownUser>)
    requires Total(ties.names) && Floor(s) && Windows(s)
    ensures var s' := Settle(ties, s, moved, saved, clock, known);
            && (moved && (PlaysOn(s) || s.room.Playing() != s.graceFile) ==> Leader(s'.room) == Some(FollowServer))
            && (!moved && !PlaysOn(s) && s.room.Playing() == s.graceFile && s.room.Look().intent == Paused ==>
                  Leader(s'.room) == Some(Laggard(s.graceFile.value)))
            && (PlaysOn(s) ==> s'.peers == s.peers && s'.graceFile == s.graceFile)
            && (!PlaysOn(s) ==> !AnyOpen(s'))
            && Quiet(s.room, s'.room) && s'.room.all == s.room.all && s'.room.positions == s.room.positions
  {
    PutOtherKeeps(s, clock(0));
    var kept := if moved && saved then PutOther(s, clock(0)) else s;
    PutAuthorityWins(ties, kept, clock(1), FollowServer);
    var led := if moved then PutAuthority(ties, kept, clock(1), FollowServer) else kept;
    ReconcileKeeps(ties, led, clock(2));
    PinIsQuiet(ties, Reconcile(ties, led, clock(2)), clock(3), known);
  }

  lemma PinIsQuiet<F>(ties: Ties<F>, s: State<F>, now: nat, known: seq<KnownUser>)
    requires Total(ties.names) && Inv(s)
    ensures var s' := PinRejoin(ties, s, now, known);
            && s'.peers == s.peers && s'.graceFile == s.graceFile && s'.room == s.room.(authority := s'.room.authority)
            && (s.room.Look().intent == Paused || Leader(s.room) == Some(FollowServer) ==> s' == s)
  {
    AnchorsWhenResumed(ties, s, now, known);
  }

  /** A choice of what to play hands the lead to the server, a pause under an open
      window to whoever is furthest behind. */
  ghost predicate LeadsAfter<F>(s: State<F>, s': State<F>, w: Write<F>) {
    && (w.SetNowPlaying? ==> Leader(s'.room) == Some(FollowServer))
    && (w.SetIntent? && w.intent.value == Paused && s.graceFile.Some? ==>
          Leader(s'.room) == Some(Laggard(s.graceFile.value)) && !AnyOpen(s'))
  }

  /** A client op that is not stale and wins. */
  lemma ClientOpEffect<F>(
    ties: Ties<F>, s: State<F>, s': State<F>, w: Write<F>, saved: bool, clock: Clock, known: seq<KnownUser>)
    requires Total(ties.names) && Inv(s) && Applies(ties, s.room, w)
    requires s' == ClientOp(ties, s, w, false, saved, clock, known)
    ensures TakesEffect(s.room, s'.room, w) && LeadsAfter(s, s', w)
  {
    var written := Observe(s, w.Time()).(room := Written(ties, s.room, w));
    WriteTakesEffect(ties, s.room, w);
    WrittenFloor(ties, s, w);
    SettleLeads(ties, written, w.SetNowPlaying?, saved, clock, known);
    SettledSees(ties, written, w.SetNowPlaying?, saved, clock, known);
  }

  lemma WrittenFloor<F>(ties: Ties<F>, s: State<F>, w: Write<F>)
    requires Inv(s)
    ensures var written := Observe(s, w.Time()).(room := Written(ties, s.room, w)); Floor(written) && Windows(written)
  {
  }

  /** What a client wrote stays in force while the server settles after it. */
  lemma SettledSees<F>(ties: Ties<F>, s: State<F>, moved: bool, saved: bool, clock: Clock, known: seq<KnownUser>)
    requires Total(ties.names)
    ensures Settle(ties, s, moved, saved, clock, known).room.Look() == s.room.Look()
  {
  }

  // ---- Merges.

  /** `r` is whichever of the two cells was written later. */
  ghost predicate IsLater<V>(less: Order<V>, a: Cell<V>, b: Cell<V>, r: Cell<V>) {
    && (r == a || r == b)
    && (a.Some? ==> r.Some? && !Before(less, r.value, a.value))
    && (b.Some? ==> r.Some? && !Before(less, r.value, b.value))
  }

  lemma JoinIsLater<V(!new)>(less: Order<V>, a: Cell<V>, b: Cell<V>)
    requires Total(less)
    ensures IsLater(less, a, b, Join(less, a, b))
  {
  }

  function CellAt<K(==), V>(cells: map<K, Lww<V>>, k: K): Cell<V> {
    if k in cells then Some(cells[k]) else None
  }

  lemma JoinedIsLater<K, V(!new)>(less: Order<V>, a: map<K, Lww<V>>, b: map<K, Lww<V>>, k: K)
    requires Total(less)
    ensures IsLater(less, CellAt(a, k), CellAt(b, k), CellAt(JoinedCells(less, a, b), k))
  {
    JoinIsLater(less, CellAt(a, k), CellAt(b, k));
  }

  ghost predicate TiesAreTotal<F(!new)>(ties: Ties<F>) {
    && Total(ties.nowPlaying) && Total(ties.intent) && Total(ties.authority)
    && Total(ties.episodes) && Total(ties.flags) && Total(ties.names)
  }

  /** A merge takes the later write of every register and every cell of the List. */
  lemma MergeTakesTheLater<F(!new)>(ties: Ties<F>, room: Room<F>, other: Room<F>, all: Room<F>, e: Entry, file: F)
    requires TiesAreTotal(ties)
    ensures var r := MergedRoom(ties, room, other, all);
            && IsLater(ties.nowPlaying, room.nowPlaying, other.nowPlaying, r.nowPlaying)
            && IsLater(ties.intent, room.intent, other.intent, r.intent)
            && IsLater(ties.authority, room.authority, other.authority, r.authority)
            && IsLater(ties.episodes, CellAt(room.list.next, e), CellAt(other.list.next, e), CellAt(r.list.next, e))
            && IsLater(ties.flags, CellAt(room.list.watched, file), CellAt(other.list.watched, file),
                       CellAt(r.list.watched, file))
            && r.all == all.all && r.positions == all.positions && r.playlist == all.playlist
            && r.list.claim == all.list.claim
  {
    JoinIsLater(ties.nowPlaying, room.nowPlaying, other.nowPlaying);
    JoinIsLater(ties.intent, room.intent, other.intent);
    JoinIsLater(ties.authority, room.authority, other.authority);
    JoinedIsLater(ties.episodes, room.list.next, other.list.next, e);
    JoinedIsLater(ties.flags, room.list.watched, other.list.watched, file);
  }

  // ---- The List.

  /** The flag reads back, and no other flag or episode moved. */
  lemma PutWatchedReads<F>(ties: Ties<F>, s: State<F>, now: nat, file: F, v: bool)
    requires Floor(s) && IsState(s.room)
    ensures var list, list' := s.room.list, PutWatched(ties, s, now, file, v).room.list;
            && (forall f :: list'.Watched(f) == if f == file then Some(v) else list.Watched(f))
            && list'.next == list.next && list'.claim == list.claim
  {
  }

  /** After the end of a file it counts as watched and no other flag moved. */
  lemma EndOfFileWatches<F>(
    ties: Ties<F>, s: State<F>, u: User, role: Role, file: F, saved: bool, clock: Clock, f: F)
    requires Inv(s) && IsState(s.room) && Ends(s, u, role, file)
    ensures EndOfFile(ties, s, u, role, file, saved, clock).room.list.Watched(f) ==
            if f == file then Some(true) else s.room.list.Watched(f)
  {
    PutOtherKeeps(s, clock(0));
    var kept := if saved then PutOther(s, clock(0)) else s;
    QuietIsState(s.room, kept.room);
    PutWatchedReads(ties, kept, clock(1), file, true);
    var led := LedFrom(ties, s, file, saved, clock);
    var bumped := Bump(ties, led, clock(5), s.room.list, file);
    assert bumped.room.list.watched == led.room.list.watched;
    assert Quiet(bumped.room, Reconcile(ties, bumped, clock(6)).room);
  }

  /** The state before the List moves on. */
  lemma LedFrom<F>(ties: Ties<F>, s: State<F>, file: F, saved: bool, clock: Clock) returns (led: State<F>)
    ensures var kept := if saved then PutOther(s, clock(0)) else s;
            var watched := PutWatched(ties, kept, clock(1), file, true);
            var moved := PutNowPlaying(ties, watched, clock(2), NextAfter(s.room.playlist, file));
            && led == PutAuthority(ties, PutIntent(ties, moved, clock(3), Paused), clock(4), FollowServer)
            && led.room.list == watched.room.list
  {
    var kept := if saved then PutOther(s, clock(0)) else s;
    var watched := PutWatched(ties, kept, clock(1), file, true);
    var moved := PutNowPlaying(ties, watched, clock(2), NextAfter(s.room.playlist, file));
    led := PutAuthority(ties, PutIntent(ties, moved, clock(3), Paused), clock(4), FollowServer);
  }

  lemma NextIs<F>(playlist: seq<F>, file: F)
    requires Unique(playlist)
    ensures file !in playlist ==> NextAfter(playlist, file) == None
    ensures forall i :: 0 <= i < |playlist| && playlist[i] == file ==>
                          NextAfter(playlist, file) == if i + 1 < |playlist| then Some(playlist[i + 1]) else None
  {
    if file !in playlist {
      NothingAfter(playlist, file);
    }
    forall i | 0 <= i < |playlist| && playlist[i] == file
      ensures NextAfter(playlist, file) == if i + 1 < |playlist| then Some(playlist[i + 1]) else None
    {
      NextAfterIs(playlist, i);
    }
  }

  /** The server leads after the end of a file. */
  lemma EndOfFileLeads<F>(ties: Ties<F>, s: State<F>, u: User, role: Role, file: F, saved: bool, clock: Clock)
    requires Inv(s) && IsState(s.room) && Ends(s, u, role, file)
    ensures Leader(EndOfFile(ties, s, u, role, file, saved, clock).room) == Some(FollowServer)
  {
    PutOtherKeeps(s, clock(0));
    var kept := if saved then PutOther(s, clock(0)) else s;
    PutWatchedKeeps(ties, kept, clock(1), file, true);
    var led := MovedOn(ties, PutWatched(ties, kept, clock(1), file, true), NextAfter(s.room.playlist, file), clock);
    BumpKeeps(ties, led, clock(5), s.room.list, file);
    NextIsAnother(s.room.playlist, file);
    ReconcileKeeps(ties, Bump(ties, led, clock(5), s.room.list, file), clock(6));
  }

  /** The room has moved from `file` to the entry after it, paused and led by the
      server; the file counts as watched, and the entry that waited for its episode
      waits for the next. */
  ghost predicate MovesOn<F(!new)>(room: Room<F>, room': Room<F>, file: F) {
    && room'.Look().intent == Paused && Leader(room') == Some(FollowServer)
    && (file !in room.playlist ==> room'.Playing() == None)
    && (forall i :: 0 <= i < |room.playlist| && room.playlist[i] == file ==>
          room'.Playing() == if i + 1 < |room.playlist| then Some(room.playlist[i + 1]) else None)
    && (forall f :: room'.list.Watched(f) == if f == file then Some(true) else room.list.Watched(f))
    && (forall e :: room'.list.NextOf(e) == Bumped(room.list, file, e))
  }

  /** All that a valid report does. */
  lemma EndOfFileEffect<F(!new)>(ties: Ties<F>, s: State<F>, u: User, role: Role, file: F, saved: bool, clock: Clock)
    requires Inv(s) && IsState(s.room) && Ends(s, u, role, file)
    ensures MovesOn(s.room, EndOfFile(ties, s, u, role, file, saved, clock).room, file)
  {
    var room' := EndOfFile(ties, s, u, role, file, saved, clock).room;
    forall e ensures room'.list.NextOf(e) == Bumped(s.room.list, file, e) {
      EndOfFileBumps(ties, s, u, role, file, saved, clock, e);
    }
    forall f ensures room'.list.Watched(f) == if f == file then Some(true) else s.room.list.Watched(f) {
      EndOfFileWatches(ties, s, u, role, file, saved, clock, f);
    }
    EndOfFileLeads(ties, s, u, role, file, saved, clock);
    EndOfFileKeeps(ties, s, u, role, file, saved, clock);
    MovesTo(s.room, room', file);
  }

  lemma MovesTo<F(!new)>(room: Room<F>, room': Room<F>, file: F)
    requires Unique(room.playlist) && room'.Playing() == NextAfter(room.playlist, file)
    requires room'.Look().intent == Paused && Leader(room') == Some(FollowServer)
    requires forall f :: room'.list.Watched(f) == if f == file then Some(true) else room.list.Watched(f)
    requires forall e :: room'.list.NextOf(e) == Bumped(room.list, file, e)
    ensures MovesOn(room, room', file)
  {
    NextIs(room.playlist, file);
  }

  /** After a mark the flag is as asked, and no other flag moved. */
  lemma MarkReads<F>(ties: Ties<F>, s: State<F>, file: F, flag: bool, clock: Clock, f: F)
    requires Inv(s) && IsState(s.room)
    ensures MarkWatched(ties, s, file, flag, clock).room.list.Watched(f) ==
            if f == file then Some(flag) else s.room.list.Watched(f)
  {
    if s.room.list.Watched(file) != Some(flag) {
      PutWatchedReads(ties, s, clock(0), file, flag);
    }
  }

  /** An entry moves on by one exactly if it claims the file and waits for the
      file's episode. */
  lemma BumpedIff<F>(list: Progress<F>, file: F, entry: Entry)
    ensures Bumped(list, file, entry) ==
            if list.claim(file).Some? && list.claim(file).value.entry == entry &&
               list.NextOf(entry) == Some(list.claim(file).value.episode)
            then Some(list.claim(file).value.episode + 1) else list.NextOf(entry)
  {
  }

  /** Compaction keeps every next episode and every set flag, and drops the unset
      ones. */
  lemma CompactionKeepsList<F>(ties: Ties<F>, s: State<F>, clock: Clock, e: Entry, file: F)
    ensures var list, list' := s.room.list, Compact(ties, s, clock).room.list;
            && list'.NextOf(e) == list.NextOf(e) && list'.claim == list.claim
            && (list'.Watched(file) == Some(true) <==> list.Watched(file) == Some(true))
            && list'.Watched(file) != Some(false)
  {
  }

  /** And everything else but the acknowledgements. */
  lemma CompactionKeepsRoom<F>(ties: Ties<F>, s: State<F>, clock: Clock)
    requires Inv(s)
    ensures var room, room' := s.room, Compact(ties, s, clock).room;
            && room'.Playing() == room.Playing() && Leader(room') == Leader(room)
            && room'.Look().intent == room.Look().intent && room'.playlist == room.playlist
            && room'.positions == room.positions && room'.all == room.all.(acknowledged := {})
  {
    CompactKeeps(ties, s, clock);
    var empty := s.(room := s.room.(nowPlaying := None, intent := None, authority := None, newest := 0,
                                    all := s.room.all.(acknowledged := {})));
    PutOtherKeeps(empty, clock(0));
    var listed := PutOther(empty, clock(0));
    PutNowPlayingWins(ties, listed, clock(1), s.room.Playing());
    var playing := PutNowPlaying(ties, listed, clock(1), s.room.Playing());
    if s.room.authority.Some? {
      PutAuthorityWins(ties, playing, clock(2), s.room.authority.value.value);
    }
  }

  // ---- Presence.

  /** A lost peer departs once thirty seconds have passed, and nobody else does. */
  lemma PromotesIff(p: Peer, now: nat)
    ensures Promotes(p, now) <==> p.presence == Lost && p.lostAt.Some? && p.lostAt.value + 30_000 <= now
  {
  }

  /** A sweep departs exactly those and takes the authority exactly if one of them
      led as a viewer. */
  lemma SweepEffect<F>(ties: Ties<F>, s: State<F>, clock: Clock)
    requires Inv(s)
    ensures var s' := SweepDeparted(ties, s, clock);
            && s'.peers.Keys == s.peers.Keys
            && (forall u :: u in s.peers ==>
                  s'.peers[u] == if Promotes(s.peers[u], clock(0))
                                 then s.peers[u].(presence := Departed) else s.peers[u])
            && Leader(s'.room) ==
               if exists u :: && u in s.peers && Promotes(s.peers[u], clock(0)) && s.peers[u].role == Interactive
                              && Holds(s.room, u)
               then Some(FollowServer) else Leader(s.room)
  {
    var swept := s.(peers := map u | u in s.peers ::
                      if Promotes(s.peers[u], clock(0)) then s.peers[u].(presence := Departed) else s.peers[u]);
    PutAuthorityWins(ties, swept, clock(1), FollowServer);
  }

  lemma HoldsIff<F>(room: Room<F>, u: User)
    ensures Holds(room, u) <==> Leader(room) == Some(FollowUser(u)) || exists f :: Leader(room) == Some(Anchor(u, f))
  {
  }

  /** Nothing but windows changed. */
  ghost predicate OnlyWindows(peers: map<User, Peer>, peers': map<User, Peer>) {
    && peers'.Keys == peers.Keys
    && forall v :: v in peers ==> peers'[v].(grace := None) == peers[v].(grace := None)
  }

  lemma TakeLeavesPeers<F>(ties: Ties<F>, s: State<F>, now: nat, u: User)
    ensures TakeAuthority(ties, s, now, u).peers == s.peers
  {
  }

  lemma PauseLeavesPeers<F>(ties: Ties<F>, s: State<F>, clock: Clock)
    requires Floor(s) && Windows(s)
    ensures OnlyWindows(s.peers, ForcePause(ties, s, clock).peers)
  {
    ForcePauseDone(ties, s, clock);
  }

  /** The registry once a connection is gone. */
  function Without<F(==)>(s: State<F>, u: User, goodbye: bool, at: nat): map<User, Peer>
    requires u in s.peers
  {
    s.peers[u := s.peers[u].(presence := if goodbye then Departed else Lost, lostAt := Some(at))]
  }

  /** Leaving changes the presence of that peer alone. */
  lemma LeavePeers<F>(
    ties: Ties<F>, s: State<F>, u: User, conn: nat, goodbye: bool, clock: Clock, known: seq<KnownUser>, saved: bool)
    requires Inv(s) && u in s.peers && s.peers[u].conn == conn
    ensures OnlyWindows(Without(s, u, goodbye, clock(0)),
                        Leave(ties, s, u, conn, goodbye, clock, known, saved).peers)
  {
    var gone := s.(peers := Without(s, u, goodbye, clock(0)));
    GoneKeeps(s, u, if goodbye then Departed else Lost, clock(0));
    PutOtherKeeps(gone, clock(1));
    var kept := if saved then PutOther(gone, clock(1)) else gone;
    if s.peers[u].role == Interactive {
      if goodbye {
        PauseLeavesPeers(ties, kept, n => clock(n + 2));
        TakeLeavesPeers(ties, ForcePause(ties, kept, n => clock(n + 2)), clock(4), u);
      } else {
        LostPeers(ties, kept, s.Infos(), u, known, clock);
      }
    }
  }

  lemma LostPeers<F>(ties: Ties<F>, kept: State<F>, before: Infos, u: User, known: seq<KnownUser>, clock: Clock)
    requires Floor(kept) && Windows(kept) && u in kept.peers
    ensures var file := Judge(kept.room, before, known, clock(2));
            var after := if file.Some? then OpenWindow(kept, u, file.value, clock(2))
                         else ForcePause(ties, kept, n => clock(n + 3));
            OnlyWindows(kept.peers, TakeAuthority(ties, after, clock(5), u).peers)
  {
    var file := Judge(kept.room, before, known, clock(2));
    if file.Some? {
      TakeLeavesPeers(ties, OpenWindow(kept, u, file.value, clock(2)), clock(5), u);
    } else {
      PauseLeavesPeers(ties, kept, n => clock(n + 3));
      TakeLeavesPeers(ties, ForcePause(ties, kept, n => clock(n + 3)), clock(5), u);
    }
  }

  /** A peer that only seeds leaves everything else as it is. */
  lemma SeederLeaves<F>(
    ties: Ties<F>, s: State<F>, u: User, conn: nat, goodbye: bool, clock: Clock, known: seq<KnownUser>, saved: bool)
    requires u in s.peers && s.peers[u].conn == conn && s.peers[u].role == Seeder
    ensures var s' := Leave(ties, s, u, conn, goodbye, clock, known, saved);
            && s'.peers == Without(s, u, goodbye, clock(0)) && s'.graceFile == s.graceFile
            && s'.room == s.room.(newest := s'.room.newest)
  {
  }
}

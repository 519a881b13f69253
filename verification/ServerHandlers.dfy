/** The server as an object: handlers that update the registry, the playback
    registers and the stamp counter in place.  Every handler takes the machine's
    step and keeps its invariant. */
module ServerHandlers {
  import opened Gating
  import opened Lww
  import opened Server
  import opened ServerEffects
  import opened Sorted
  import opened Wrappers

  class Shared<!F(==, !new)> {
    const ties: Ties<F>
    var peers: map<User, Peer>
    var graceFile: Option<F>
    var room: Room<F>
    var lastIssued: nat

    ghost function Value(): State<F>
      reads this
    {
      State(peers, graceFile, room, lastIssued)
    }

    ghost predicate Valid()
      reads this
    {
      Inv(Value()) && IsState(room) && Total(ties.names)
    }

    /** A restart takes its floor from the stored state. */
    constructor (ties: Ties<F>, room: Room<F>)
      requires IsState(room) && Total(ties.names)
      ensures Valid() && this.ties == ties && this.room == room && peers == map[] && lastIssued == Newest(room)
    {
      this.ties, this.room := ties, room;
      peers, graceFile, lastIssued := map[], None, Newest(room);
    }

    // ---- Writes.

    method NextStamp(now: nat) returns (ts: nat)
      modifies this`lastIssued
      ensures lastIssued == ts > old(lastIssued) && ts >= now && ts == Stamp(old(lastIssued), now)
    {
      ts := Max(now, lastIssued + 1);
      lastIssued := ts;
    }

    method WriteIntent(now: nat, v: Intent)
      modifies this
      ensures Value() == PutIntent(ties, old(Value()), now, v)
    {
      var ts := NextStamp(now);
      room := room.(intent := Put(ties.intent, room.intent, Lww(ts, v)));
    }

    method WriteNowPlaying(now: nat, v: Option<F>)
      modifies this
      ensures Value() == PutNowPlaying(ties, old(Value()), now, v)
    {
      var ts := NextStamp(now);
      room := room.(nowPlaying := Put(ties.nowPlaying, room.nowPlaying, Lww(ts, v)));
    }

    method WriteAuthority(now: nat, v: Authority<F>)
      modifies this
      ensures Value() == PutAuthority(ties, old(Value()), now, v)
    {
      var ts := NextStamp(now);
      room := room.(authority := Put(ties.authority, room.authority, Lww(ts, v)));
    }

    method WriteOther(now: nat)
      modifies this
      ensures Value() == PutOther(old(Value()), now)
    {
      var ts := NextStamp(now);
      room := room.(newest := Max(room.newest, ts));
    }

    method WriteWatched(now: nat, file: F, v: bool)
      modifies this
      ensures Value() == PutWatched(ties, old(Value()), now, file, v)
    {
      var ts := NextStamp(now);
      var list := room.list;
      var cell := Put(ties.flags, if file in list.watched then Some(list.watched[file]) else None, Lww(ts, v));
      room := room.(newest := Max(room.newest, ts), list := list.(watched := list.watched[file := cell.value]));
    }

    method WriteNext(now: nat, e: Entry, v: Option<nat>)
      modifies this
      ensures Value() == PutNext(ties, old(Value()), now, e, v)
    {
      var ts := NextStamp(now);
      var list := room.list;
      var cell := Put(ties.episodes, if e in list.next then Some(list.next[e]) else None, Lww(ts, v));
      room := room.(newest := Max(room.newest, ts), list := list.(next := list.next[e := cell.value]));
    }

    // ---- Windows and authority.

    /** Returns whether any window was open. */
    method CloseGraceWindows() returns (any: bool)
      modifies this`peers, this`graceFile
      ensures any == AnyOpen(old(Value())) && Value() == CloseWindows(old(Value()))
    {
      var closed, found := CloseAll(peers);
      any := graceFile.Some? || found;
      graceFile, peers := None, closed;
    }

    method FollowTheLaggard(now: nat, file: F)
      modifies this
      ensures Value() == FollowLaggard(ties, old(Value()), now, file)
    {
      if room.Playing() == Some(file) {
        WriteAuthority(now, Laggard(file));
      }
    }

    /** Whatever was playing is paused, every window is closed and presence is as
        it was. */
    method ForceAPause(clock: Clock)
      requires Floor(Value()) && Windows(Value())
      modifies this
      ensures Value() == ForcePause(ties, old(Value()), clock)
      ensures Inv(Value()) && !AnyOpen(Value()) && room.Look().intent == Paused
      ensures peers.Keys == old(peers).Keys && forall u :: u in peers ==> peers[u] == old(peers)[u].(grace := None)
      ensures Leader(room) == if old(graceFile).Some? && old(room).Playing() == old(graceFile)
                              then Some(Laggard(old(graceFile).value)) else Leader(old(room))
    {
      ForcePauseDone(ties, Value(), clock);
      WriteIntent(clock(0), Paused);
      var file := graceFile;
      var any := CloseGraceWindows();
      if any {
        if file.Some? {
          FollowTheLaggard(clock(1), file.value);
        }
      } else {
        NothingToClose(PutIntent(ties, old(Value()), clock(0), Paused));
      }
    }

    /** Afterwards a window is open only while its file plays. */
    method ReconcileGraceWindows(now: nat)
      requires Floor(Value()) && Windows(Value())
      modifies this
      ensures Value() == Reconcile(ties, old(Value()), now) && Inv(Value())
      ensures if PlaysOn(old(Value())) then Value() == old(Value())
              else !AnyOpen(Value()) && room == old(room).(authority := room.authority)
    {
      ReconcileKeeps(ties, Value(), now);
      if graceFile.None? {
        return;
      }
      var file := graceFile.value;
      var paused := room.Look().intent != Playing;
      var moved := room.Playing() != Some(file);
      if paused || moved {
        var _ := CloseGraceWindows();
        if !moved {
          FollowTheLaggard(now, file);
        }
      }
    }

    /** Opens a window for a user lost on this connection, if the video was
        playing just before. */
    method OpenGraceWindow(u: User, conn: nat, before: Infos, known: seq<KnownUser>, now: nat) returns (windowed: bool)
      modifies this`peers, this`graceFile
      ensures var file := Judge(room, before, known, now);
              && windowed == (file.Some? && CanOpen(old(Value()), u, conn))
              && Value() == if windowed then OpenWindow(old(Value()), u, file.value, now) else old(Value())
    {
      var gating := MergeKnownOffline(before, known, now);
      if !Active(room.Look(), gating) {
        return false;
      }
      if u in peers && peers[u].conn == conn && peers[u].presence == Lost {
        peers := peers[u := peers[u].(grace := Some(now + GRACE_MILLIS))];
        graceFile := room.Playing();
        return true;
      }
      return false;
    }

    method TakeAuthorityFrom(u: User, now: nat)
      modifies this
      ensures Value() == TakeAuthority(ties, old(Value()), now, u)
    {
      if Holds(room, u) {
        WriteAuthority(now, FollowServer);
      }
    }

    /** Changes the authority only, and only while the video really plays. */
    method PinRejoinAnchor(now: nat, known: seq<KnownUser>)
      requires Valid()
      modifies this
      ensures Valid() && Value() == PinRejoin(ties, old(Value()), now, known)
      ensures Value() != old(Value()) ==>
                Active(old(room).Look(), WithKnown(old(Value()).Infos(), known, now)) && room.Look() == old(room).Look()
    {
      PinKeeps(ties, Value(), now, known);
      QuietIsState(room, PinRejoin(ties, Value(), now, known).room);
      if room.authority.None? || !room.authority.value.value.Laggard? || room.Look().intent != Playing {
        return;
      }
      var file := room.authority.value.value.file;
      var infos := map v | v in peers :: peers[v].Seen();
      var gating := MergeKnownOffline(infos, known, now);
      if room.Playing() != Some(file) || !Active(room.Look(), gating) {
        return;
      }
      var pick := RejoinLaggard(ties.names, LoadedPositions(State(peers, graceFile, room, lastIssued), file));
      WriteAuthority(now, if pick.Some? then Anchor(pick.value, file) else FollowServer);
    }

    // ---- Presence.

    /** The user is present without a window, and nobody else's entry changes. */
    method HandleJoin(u: User, conn: nat, role: Role)
      requires Valid()
      modifies this`peers, this`graceFile
      ensures Valid() && Value() == Register(old(Value()), u, conn, role)
      ensures peers == old(peers)[u := Peer(conn, role, Present, None, None)]
      ensures graceFile.Some? <==> exists v :: v in old(peers) && v != u && old(peers)[v].grace.Some?
      ensures graceFile.Some? ==> graceFile == old(graceFile)
    {
      RegisterKeeps(Value(), u, conn, role);
      peers := peers[u := Peer(conn, role, Present, None, None)];
      if !(exists v :: v in peers && peers[v].grace.Some?) {
        graceFile := None;
      }
      OpenElsewhere(old(peers), peers, u);
    }

    /** A superseded connection changes nothing.  A viewer who leaves holds no
        authority; a goodbye pauses; a lost link either keeps the video playing
        with a window on that viewer, or pauses. */
    method HandleLeave(u: User, conn: nat, goodbye: bool, clock: Clock, known: seq<KnownUser>, saved: bool)
      requires Valid()
      modifies this
      ensures Valid() && Value() == Leave(ties, old(Value()), u, conn, goodbye, clock, known, saved)
      ensures !(u in old(peers) && old(peers)[u].conn == conn) ==> Value() == old(Value())
      ensures u in old(peers) && old(peers)[u].conn == conn && old(peers)[u].role == Interactive ==>
                && u in peers && peers[u].presence == (if goodbye then Departed else Lost) && !Holds(room, u)
                && if !goodbye && Active(old(room).Look(), WithKnown(old(Value()).Infos(), known, clock(2)))
                   then room.Look() == old(room).Look() && peers[u].grace == Some(clock(2) + GRACE_MILLIS)
                   else room.Look().intent == Paused && !AnyOpen(Value())
      ensures u in old(peers) && old(peers)[u].conn == conn ==>
                && OnlyWindows(Without(old(Value()), u, goodbye, clock(0)), peers)
                && (old(peers)[u].role == Seeder ==>
                      peers == Without(old(Value()), u, goodbye, clock(0)) && graceFile == old(graceFile) &&
                      room == old(room).(newest := room.newest))
    {
      if u in peers && peers[u].conn == conn {
        LeavePeers(ties, Value(), u, conn, goodbye, clock, known, saved);
        if peers[u].role == Seeder {
          SeederLeaves(ties, Value(), u, conn, goodbye, clock, known, saved);
        }
      }
      LeaveKeeps(ties, Value(), u, conn, goodbye, clock, known, saved);
      QuietIsState(room, Leave(ties, Value(), u, conn, goodbye, clock, known, saved).room);
      LeaveEffect(ties, Value(), u, conn, goodbye, clock, known, saved);
      if u !in peers || peers[u].conn != conn {
        return;
      }
      LeaveOurs(u, goodbye, clock, known, saved);
    }

    method LeaveOurs(u: User, goodbye: bool, clock: Clock, known: seq<KnownUser>, saved: bool)
      requires Inv(Value()) && u in peers
      modifies this
      ensures Value() == Leave(ties, old(Value()), u, old(peers)[u].conn, goodbye, clock, known, saved)
    {
      GoneKeeps(Value(), u, if goodbye then Departed else Lost, clock(0));
      var before := map v | v in peers :: peers[v].Seen();
      var role, conn := peers[u].role, peers[u].conn;
      peers := peers[u := peers[u].(presence := if goodbye then Departed else Lost, lostAt := Some(clock(0)))];
      PutOtherKeeps(Value(), clock(1));
      if saved {
        WriteOther(clock(1));
      }
      if role == Interactive {
        if goodbye {
          ForceAPause(n => clock(n + 2));
          TakeAuthorityFrom(u, clock(4));
        } else {
          var windowed := OpenGraceWindow(u, conn, before, known, clock(2));
          if !windowed {
            ForceAPause(n => clock(n + 3));
          }
          TakeAuthorityFrom(u, clock(5));
        }
      }
    }

    /** Exactly the long lost depart, no register but the authority moves, and no
        departed viewer keeps that. */
    method HandleDepartedTick(clock: Clock)
      requires Valid()
      modifies this
      ensures Valid() && Value() == SweepDeparted(ties, old(Value()), clock)
      ensures room.Look() == old(room).Look() && graceFile == old(graceFile)
      ensures peers.Keys == old(peers).Keys
      ensures forall u :: u in peers ==>
                            peers[u] == if Promotes(old(peers)[u], clock(0))
                                        then old(peers)[u].(presence := Departed) else old(peers)[u]
      ensures forall u :: u in peers && Promotes(old(peers)[u], clock(0)) && peers[u].role == Interactive ==>
                            !Holds(room, u)
      ensures Leader(room) ==
              if exists u :: && u in old(peers) && Promotes(old(peers)[u], clock(0))
                             && old(peers)[u].role == Interactive && Holds(old(room), u)
              then Some(FollowServer) else Leader(old(room))
    {
      SweepEffect(ties, Value(), clock);
      SweepDepartedKeeps(ties, Value(), clock);
      DepartureNeverPauses(ties, Value(), clock);
      QuietIsState(room, SweepDeparted(ties, Value(), clock).room);
      var now := clock(0);
      var held := exists u :: u in peers && Promotes(peers[u], now) && peers[u].role == Interactive && Holds(room, u);
      Promote(now);
      if held {
        WriteAuthority(clock(1), FollowServer);
      }
    }

    method Promote(now: nat)
      modifies this`peers
      ensures peers == map u | u in old(peers) ::
                         if Promotes(old(peers)[u], now) then old(peers)[u].(presence := Departed) else old(peers)[u]
    {
      var todo := peers.Keys;
      while todo != {}
        invariant peers.Keys == old(peers.Keys) && todo <= peers.Keys
        invariant forall u :: u in peers ==>
                                peers[u] == if u !in todo && Promotes(old(peers)[u], now)
                                            then old(peers)[u].(presence := Departed) else old(peers)[u]
        decreases |todo|
      {
        var u :| u in todo;
        if Promotes(peers[u], now) {
          peers := peers[u := peers[u].(presence := Departed)];
        }
        todo := todo - {u};
      }
    }

    /** No window that has run out is left; if there was one, everyone is paused and
        no window is open. */
    method HandleGraceTick(clock: Clock)
      requires Valid()
      modifies this
      ensures Valid() && Value() == SweepGrace(ties, old(Value()), clock)
      ensures !Expired(Value(), clock(0))
      ensures if Expired(old(Value()), clock(0)) then room.Look().intent == Paused && !AnyOpen(Value())
              else Value() == old(Value())
      ensures Expired(old(Value()), clock(0)) ==> Leader(room) == Some(Laggard(old(graceFile).value))
    {
      SweepGraceKeeps(ties, Value(), clock);
      QuietIsState(room, SweepGrace(ties, Value(), clock).room);
      var now := clock(0);
      if exists u :: u in peers && peers[u].grace.Some? && peers[u].grace.value <= now {
        ForceAPause(n => clock(n + 1));
      }
    }

    // ---- Client writes.

    /** After an applied op or merge: windows are reconciled and what the client
        chose to play and whether it plays stays. */
    method SettleAfter(moved: bool, saved: bool, clock: Clock, known: seq<KnownUser>)
      requires Total(ties.names) && Floor(Value()) && Windows(Value()) && IsState(room)
      modifies this
      ensures Valid() && Value() == Settle(ties, old(Value()), moved, saved, clock, known)
      ensures room.Look() == old(room).Look()
    {
      SettleKeeps(ties, Value(), moved, saved, clock, known);
      SettledSees(ties, Value(), moved, saved, clock, known);
      QuietIsState(room, Settle(ties, Value(), moved, saved, clock, known).room);
      PutOtherKeeps(Value(), clock(0));
      if moved {
        if saved {
          WriteOther(clock(0));
        }
        PutAuthorityWins(ties, Value(), clock(1), FollowServer);
        WriteAuthority(clock(1), FollowServer);
      }
      QuietIsState(old(room), room);
      ReconcileGraceWindows(clock(2));
      QuietIsState(old(room), room);
      PinRejoinAnchor(clock(3), known);
    }

    /** The floor reaches the op's timestamp.  A copy that changes nothing, or is
        from before a compaction, does no more; any other is in force afterwards. */
    method HandleOp(w: Write<F>, stale: bool, saved: bool, clock: Clock, known: seq<KnownUser>)
      requires Valid()
      modifies this
      ensures Valid() && Value() == ClientOp(ties, old(Value()), w, stale, saved, clock, known)
      ensures lastIssued >= w.Time()
      ensures if stale || !Applies(ties, old(room), w) then room == old(room) && peers == old(peers)
              else TakesEffect(old(room), room, w) && LeadsAfter(old(Value()), Value(), w)
    {
      lastIssued := Max(lastIssued, w.Time());
      if stale || !Applies(ties, room, w) {
        return;
      }
      WrittenIsState(ties, room, w);
      room := Written(ties, room, w);
      SettleAfter(w.SetNowPlaying?, saved, clock, known);
      ClientOpEffect(ties, old(Value()), Value(), w, saved, clock, known);
    }

    /** The registers are the joined ones and no timestamp of the client is past
        the floor. */
    method HandleMerge(other: Room<F>, all: Room<F>, saved: bool, clock: Clock, known: seq<KnownUser>)
      requires Valid() && IsState(other) && Unique(all.playlist)
      modifies this
      ensures Valid() && Value() == ClientMerge(ties, old(Value()), other, all, saved, clock, known)
      ensures lastIssued >= Newest(other)
      ensures room.Look() == MergedRoom(ties, old(room), other, all).Look()
    {
      MergedIsState(ties, room, other, all);
      MergeObserves(ties, room, other, all);
      var before := room.Playing();
      room := MergedRoom(ties, room, other, all);
      lastIssued := Max(lastIssued, Newest(room));
      SettleAfter(before != room.Playing(), saved, clock, known);
    }

    // ---- The end of a file.

    /** A valid report moves to the next entry, paused, with no window open, and
        advances the List's entry by one at most; any other changes nothing. */
    method HandleEof(u: User, role: Role, file: F, saved: bool, clock: Clock)
      requires Valid()
      modifies this
      ensures Valid() && Value() == EndOfFile(ties, old(Value()), u, role, file, saved, clock)
      ensures if !Ends(old(Value()), u, role, file) then Value() == old(Value())
              else MovesOn(old(room), room, file) && !AnyOpen(Value())
    {
      EndOfFileKeeps(ties, Value(), u, role, file, saved, clock);
      EndOfFileIsState(ties, Value(), u, role, file, saved, clock);
      if role != Interactive || room.Playing() != Some(file) {
        return;
      }
      if ManualOf(room.Look(), u).Some? || EffectiveWatch(room.Look(), u) == NotWatching {
        return;
      }
      EndOfFileEffect(ties, Value(), u, role, file, saved, clock);
      MoveOn(file, saved, clock);
    }

    /** The writes of a valid report. */
    method MoveOn(file: F, saved: bool, clock: Clock)
      requires Inv(Value())
      modifies this
      ensures var kept := if saved then PutOther(old(Value()), clock(0)) else old(Value());
              var watched := PutWatched(ties, kept, clock(1), file, true);
              var moved := PutNowPlaying(ties, watched, clock(2), NextAfter(old(room).playlist, file));
              var led := PutAuthority(ties, PutIntent(ties, moved, clock(3), Paused), clock(4), FollowServer);
              Value() == Reconcile(ties, Bump(ties, led, clock(5), old(room).list, file), clock(6))
    {
      var next, list := NextAfter(room.playlist, file), room.list;
      PutOtherKeeps(Value(), clock(0));
      if saved {
        WriteOther(clock(0));
      }
      PutWatchedKeeps(ties, Value(), clock(1), file, true);
      WriteWatched(clock(1), file, true);
      WriteMove(next, clock);
      BumpFor(list, file, clock(5));
      ReconcileGraceWindows(clock(6));
    }

    method WriteMove(next: Option<F>, clock: Clock)
      requires Floor(Value()) && Windows(Value())
      modifies this
      ensures var moved := PutNowPlaying(ties, old(Value()), clock(2), next);
              Value() == PutAuthority(ties, PutIntent(ties, moved, clock(3), Paused), clock(4), FollowServer)
      ensures Floor(Value()) && Windows(Value())
    {
      ghost var led := MovedOn(ties, Value(), next, clock);
      WriteNowPlaying(clock(2), next);
      WriteIntent(clock(3), Paused);
      WriteAuthority(clock(4), FollowServer);
    }

    method BumpFor(list: Progress<F>, file: F, now: nat)
      requires Floor(Value()) && Windows(Value())
      modifies this
      ensures Value() == Bump(ties, old(Value()), now, list, file) && Floor(Value()) && Windows(Value())
    {
      BumpKeeps(ties, Value(), now, list, file);
      var advance := list.Advance(file);
      if advance.Some? {
        WriteNext(now, advance.value.entry, Some(advance.value.episode + 1));
      }
    }

    /** The flag is set, the List's entry advances only when it is set to true anew,
        and playback sees nothing of it. */
    method HandleMark(file: F, flag: bool, clock: Clock)
      requires Valid()
      modifies this
      ensures Valid() && Value() == MarkWatched(ties, old(Value()), file, flag, clock)
      ensures room.Look() == old(room).Look()
      ensures if old(room).list.Watched(file) == Some(flag) then Value() == old(Value())
              else forall e :: room.list.NextOf(e) ==
                               if flag then Bumped(old(room).list, file, e) else old(room).list.NextOf(e)
      ensures forall f :: room.list.Watched(f) == if f == file then Some(flag) else old(room).list.Watched(f)
    {
      forall f ensures MarkWatched(ties, Value(), file, flag, clock).room.list.Watched(f) ==
                       if f == file then Some(flag) else room.list.Watched(f)
      {
        MarkReads(ties, Value(), file, flag, clock, f);
      }
      MarkKeeps(ties, Value(), file, flag, clock);
      MarkIsState(ties, Value(), file, flag, clock);
      if room.list.Watched(file) == Some(flag) {
        return;
      }
      forall e ensures MarkWatched(ties, Value(), file, flag, clock).room.list.NextOf(e)
                    == if flag then Bumped(room.list, file, e) else room.list.NextOf(e)
      {
        MarkBumps(ties, Value(), file, flag, clock, e);
      }
      var list := room.list;
      PutWatchedKeeps(ties, Value(), clock(0), file, flag);
      WriteWatched(clock(0), file, flag);
      if flag {
        BumpFor(list, file, clock(1));
      }
    }
  }

  /** Clears every entry's window, in whatever order the registry is walked. */
  method CloseAll(peers: map<User, Peer>) returns (closed: map<User, Peer>, any: bool)
    ensures closed == map u | u in peers :: peers[u].(grace := None)
    ensures any <==> exists u :: u in peers && peers[u].grace.Some?
  {
    closed, any := peers, false;
    var todo := peers.Keys;
    while todo != {}
      invariant closed.Keys == peers.Keys && todo <= peers.Keys
      invariant forall u :: u in peers ==> closed[u] == if u in todo then peers[u] else peers[u].(grace := None)
      invariant any <==> exists u :: u in peers && u !in todo && peers[u].grace.Some?
      decreases |todo|
    {
      var u :| u in todo;
      any := any || closed[u].grace.Some?;
      closed := closed[u := closed[u].(grace := None)];
      todo := todo - {u};
    }
  }

  lemma NothingToClose<F>(s: State<F>)
    requires !AnyOpen(s)
    ensures CloseWindows(s) == s
  {
    assert (map u | u in s.peers :: s.peers[u].(grace := None)) == s.peers;
  }

  lemma OpenElsewhere(peers: map<User, Peer>, peers': map<User, Peer>, u: User)
    requires u in peers' && peers'[u].grace.None? && peers' == peers[u := peers'[u]]
    ensures (exists v :: v in peers' && peers'[v].grace.Some?) <==>
            (exists v :: v in peers && v != u && peers[v].grace.Some?)
  {
    if v :| v in peers && v != u && peers[v].grace.Some? {
      assert v in peers' && peers'[v].grace.Some?;
    }
  }

  lemma MergeObserves<F>(ties: Ties<F>, room: Room<F>, other: Room<F>, all: Room<F>)
    ensures Newest(MergedRoom(ties, room, other, all)) >= Newest(other)
  {
  }

  /** What the end of a viewer's session does. */
  lemma LeaveEffect<F>(
    ties: Ties<F>, s: State<F>, u: User, conn: nat, goodbye: bool, clock: Clock, known: seq<KnownUser>, saved: bool)
    requires Inv(s)
    ensures var s' := Leave(ties, s, u, conn, goodbye, clock, known, saved);
            u in s.peers && s.peers[u].conn == conn && s.peers[u].role == Interactive ==>
              && u in s'.peers && s'.peers[u].presence == (if goodbye then Departed else Lost) && !Holds(s'.room, u)
              && if !goodbye && Active(s.room.Look(), WithKnown(s.Infos(), known, clock(2)))
                 then s'.room.Look() == s.room.Look() && s'.peers[u].grace == Some(clock(2) + GRACE_MILLIS)
                 else s'.room.Look().intent == Paused && !AnyOpen(s')
  {
    if u in s.peers && s.peers[u].conn == conn && s.peers[u].role == Interactive {
      var presence := if goodbye then Departed else Lost;
      var gone := s.(peers := s.peers[u := s.peers[u].(presence := presence, lostAt := Some(clock(0)))]);
      GoneKeeps(s, u, presence, clock(0));
      PutOtherKeeps(gone, clock(1));
      var kept := if saved then PutOther(gone, clock(1)) else gone;
      if goodbye {
        ForcePauseDone(ties, kept, n => clock(n + 2));
        TakeAuthorityKeeps(ties, ForcePause(ties, kept, n => clock(n + 2)), clock(4), u);
      } else {
        LostEffect(ties, s, kept, u, clock, known);
      }
    }
  }

  lemma LostEffect<F>(ties: Ties<F>, s: State<F>, kept: State<F>, u: User, clock: Clock, known: seq<KnownUser>)
    requires Inv(kept) && u in s.peers && s.peers[u].role == Interactive && kept.room.Look() == s.room.Look()
    requires kept.peers == s.peers[u := s.peers[u].(presence := Lost, lostAt := Some(clock(0)))]
    ensures var file := Judge(kept.room, s.Infos(), known, clock(2));
            var after := if file.Some? then OpenWindow(kept, u, file.value, clock(2))
                         else ForcePause(ties, kept, n => clock(n + 3));
            var s' := TakeAuthority(ties, after, clock(5), u);
            && u in s'.peers && s'.peers[u].presence == Lost && !Holds(s'.room, u)
            && if Active(s.room.Look(), WithKnown(s.Infos(), known, clock(2)))
               then s'.room.Look() == s.room.Look() && s'.peers[u].grace == Some(clock(2) + GRACE_MILLIS)
               else s'.room.Look().intent == Paused && !AnyOpen(s')
  {
    LostKeeps(ties, kept, s.Infos(), u, known, clock);
    var file := Judge(kept.room, s.Infos(), known, clock(2));
    if file.Some? {
      TakeAuthorityKeeps(ties, OpenWindow(kept, u, file.value, clock(2)), clock(5), u);
    } else {
      ForcePauseDone(ties, kept, n => clock(n + 3));
      TakeAuthorityKeeps(ties, ForcePause(ties, kept, n => clock(n + 3)), clock(5), u);
    }
  }
}

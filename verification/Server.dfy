/** The server's playback and presence machine.  Each handler is one step of
    `Next`; what a handler reads from the clock at its successive stamps is the
    event's `clock`. */
module Server {
  import opened Gating
  import opened Lww
  import opened Sorted
  import opened Wrappers

  datatype Authority<+F> = FollowServer | FollowUser(user: User) | Anchor(user: User, file: F) | Laggard(file: F)

  datatype Peer = Peer(conn: nat, role: Role, presence: Presence, lostAt: Option<nat>, grace: Option<nat>) {
    function Seen(): Info {
      Info(role, presence, grace)
    }
  }

  /** A peer's last reported position. */
  datatype Position<+F> = Position(file: F, millis: nat)

  datatype Entry = Entry(id: nat)
  datatype Claim = Claim(entry: Entry, episode: nat)

  /** The List's progress: the entry that claims a file together with the file's
      episode number, every entry's next episode (none when it is not a number),
      and the watched flags. */
  datatype Progress<!F(==)> = Progress(
    claim: F -> Option<Claim>,
    next: map<Entry, Lww<Option<nat>>>,
    watched: map<F, Lww<bool>>)
  {
    function NextOf(e: Entry): Option<nat> {
      if e in next then next[e].value else None
    }

    function Watched(file: F): Option<bool> {
      if file in watched then Some(watched[file].value) else None
    }

    /** The entry that moves on when `file` has been watched: its next episode is
        the one the file holds. */
    function Advance(file: F): Option<Claim> {
      match claim(file)
      case Some(c) => if NextOf(c.entry) == Some(c.episode) then Some(c) else None
      case None => None
    }
  }

  /** The replicated state: the three playback registers, the List's progress,
      and everything else, with the newest timestamp outside the registers. */
  datatype Room<!F(==)> = Room(
    nowPlaying: Cell<Option<F>>,
    intent: Cell<Intent>,
    authority: Cell<Authority<F>>,
    all: Commitments<F>,
    positions: map<User, Position<F>>,
    playlist: seq<F>,
    list: Progress<F>,
    newest: nat)
  {
    function Playing(): Option<F> {
      if nowPlaying.Some? then nowPlaying.value.value else None
    }

    function Look(): View<F> {
      View(if intent.Some? then intent.value.value else Paused, Playing(), all)
    }
  }

  /** How ties between writes of one timestamp break, and the order of names. */
  datatype Ties<!F(==)> = Ties(
    nowPlaying: Order<Option<F>>,
    intent: Order<Intent>,
    authority: Order<Authority<F>>,
    episodes: Order<Option<nat>>,
    flags: Order<bool>,
    names: Order<User>)

  datatype State<!F(==)> = State(
    peers: map<User, Peer>,
    graceFile: Option<F>,
    room: Room<F>,
    lastIssued: nat)
  {
    function Infos(): Infos {
      map u | u in peers :: peers[u].Seen()
    }
  }

  type Clock = nat -> nat

  // ---- Stamps.

  function TimeOf<V>(cell: Cell<V>): nat {
    if cell.Some? then cell.value.timestamp else 0
  }

  function Newest<F>(room: Room<F>): nat {
    Max(Max(TimeOf(room.nowPlaying), TimeOf(room.intent)), Max(TimeOf(room.authority), room.newest))
  }

  function Stamp(lastIssued: nat, now: nat): (ts: nat)
    ensures ts > lastIssued && ts >= now && (ts == now || ts == lastIssued + 1)
  {
    Max(now, lastIssued + 1)
  }

  /** Nothing but the intent, the authority and the newest timestamp moved. */
  ghost predicate Quiet<F>(room: Room<F>, room': Room<F>) {
    && room'.nowPlaying == room.nowPlaying && room'.playlist == room.playlist && room'.list == room.list
    && room.newest <= room'.newest
  }

  // Server-authored writes.

  function PutNowPlaying<F(==)>(ties: Ties<F>, s: State<F>, now: nat, v: Option<F>): (r: State<F>)
    ensures s.lastIssued <= r.lastIssued
  {
    var ts := Stamp(s.lastIssued, now);
    s.(lastIssued := ts, room := s.room.(nowPlaying := Put(ties.nowPlaying, s.room.nowPlaying, Lww(ts, v))))
  }

  function PutIntent<F(==)>(ties: Ties<F>, s: State<F>, now: nat, v: Intent): (r: State<F>)
    ensures s.lastIssued <= r.lastIssued && Quiet(s.room, r.room)
  {
    var ts := Stamp(s.lastIssued, now);
    s.(lastIssued := ts, room := s.room.(intent := Put(ties.intent, s.room.intent, Lww(ts, v))))
  }

  function PutAuthority<F(==)>(ties: Ties<F>, s: State<F>, now: nat, v: Authority<F>): (r: State<F>)
    ensures s.lastIssued <= r.lastIssued && Quiet(s.room, r.room)
  {
    var ts := Stamp(s.lastIssued, now);
    s.(lastIssued := ts, room := s.room.(authority := Put(ties.authority, s.room.authority, Lww(ts, v))))
  }

  function PutWatched<F(==)>(ties: Ties<F>, s: State<F>, now: nat, file: F, v: bool): (r: State<F>)
    ensures s.lastIssued <= r.lastIssued
  {
    var ts, list := Stamp(s.lastIssued, now), s.room.list;
    var cell := Put(ties.flags, if file in list.watched then Some(list.watched[file]) else None, Lww(ts, v));
    s.(lastIssued := ts, room := s.room.(newest := Max(s.room.newest, ts),
                                         list := list.(watched := list.watched[file := cell.value])))
  }

  function PutNext<F(==)>(ties: Ties<F>, s: State<F>, now: nat, e: Entry, v: Option<nat>): (r: State<F>)
    ensures s.lastIssued <= r.lastIssued
  {
    var ts, list := Stamp(s.lastIssued, now), s.room.list;
    var cell := Put(ties.episodes, if e in list.next then Some(list.next[e]) else None, Lww(ts, v));
    s.(lastIssued := ts,
        room := s.room.(newest := Max(s.room.newest, ts), list := list.(next := list.next[e := cell.value])))
  }

  /** Advances the entry a watched file belongs to, judged by `list`. */
  function Bump<F(==)>(ties: Ties<F>, s: State<F>, now: nat, list: Progress<F>, file: F): (r: State<F>)
    ensures s.lastIssued <= r.lastIssued
  {
    match list.Advance(file)
    case Some(c) => PutNext(ties, s, now, c.entry, Some(c.episode + 1))
    case None => s
  }

  /** A server write to a cell that nothing here reads, such as a saved position. */
  function PutOther<F(==)>(s: State<F>, now: nat): (r: State<F>)
    ensures s.lastIssued <= r.lastIssued && Quiet(s.room, r.room)
  {
    var ts := Stamp(s.lastIssued, now);
    s.(lastIssued := ts, room := s.room.(newest := Max(s.room.newest, ts)))
  }

  // ---- Grace windows.

  predicate AnyOpen<F(==)>(s: State<F>) {
    s.graceFile.Some? || exists u :: u in s.peers && s.peers[u].grace.Some?
  }

  function CloseWindows<F(==)>(s: State<F>): State<F> {
    s.(graceFile := None, peers := map u | u in s.peers :: s.peers[u].(grace := None))
  }

  function FollowLaggard<F(==)>(ties: Ties<F>, s: State<F>, now: nat, file: F): (r: State<F>)
    ensures s.lastIssued <= r.lastIssued && Quiet(s.room, r.room)
  {
    if s.room.Playing() == Some(file) then PutAuthority(ties, s, now, Laggard(file)) else s
  }

  /** Pause first, then end every window. */
  function ForcePause<F(==)>(ties: Ties<F>, s: State<F>, clock: Clock): (r: State<F>)
    ensures s.lastIssued <= r.lastIssued && Quiet(s.room, r.room)
  {
    var paused := PutIntent(ties, s, clock(0), Paused);
    if !AnyOpen(paused) then paused
    else if paused.graceFile.Some? then FollowLaggard(ties, CloseWindows(paused), clock(1), paused.graceFile.value)
    else CloseWindows(paused)
  }

  /** Windows exist only while their file plays. */
  function Reconcile<F(==)>(ties: Ties<F>, s: State<F>, now: nat): (r: State<F>)
    ensures s.lastIssued <= r.lastIssued && Quiet(s.room, r.room)
  {
    if s.graceFile.None? then s
    else
      var file := s.graceFile.value;
      var paused := s.room.Look().intent != Playing;
      var moved := s.room.Playing() != Some(file);
      if !paused && !moved then s
      else if moved then CloseWindows(s) else FollowLaggard(ties, CloseWindows(s), now, file)
  }

  /** The judgement on a drop: the file to play on with, if the video was playing
      with the leaver still there. */
  function Judge<F(==)>(room: Room<F>, before: Infos, known: seq<KnownUser>, now: nat): Option<F> {
    if Active(room.Look(), WithKnown(before, known, now)) then room.Playing() else None
  }

  /** Opens the window, unless the user came back on another connection. */
  predicate CanOpen<F(==)>(s: State<F>, u: User, conn: nat) {
    u in s.peers && s.peers[u].conn == conn && s.peers[u].presence == Lost
  }

  function OpenWindow<F(==)>(s: State<F>, u: User, file: F, now: nat): State<F>
    requires u in s.peers
  {
    s.(peers := s.peers[u := s.peers[u].(grace := Some(now + GRACE_MILLIS))], graceFile := Some(file))
  }

  // ---- Seek authority.

  predicate Holds<F(==)>(room: Room<F>, u: User) {
    room.authority.Some? && match room.authority.value.value
                            case FollowUser(v) => v == u
                            case Anchor(v, _) => v == u
                            case _ => false
  }

  function TakeAuthority<F(==)>(ties: Ties<F>, s: State<F>, now: nat, u: User): (r: State<F>)
    ensures s.lastIssued <= r.lastIssued && Quiet(s.room, r.room)
  {
    if Holds(s.room, u) then PutAuthority(ties, s, now, FollowServer) else s
  }

  /** The positions of the present viewers who play `file`. */
  function LoadedPositions<F(==)>(s: State<F>, file: F): map<User, nat> {
    map u | && u in s.peers && s.peers[u].role == Interactive && s.peers[u].presence == Present
            && (u, file) in s.room.all.availability
            && s.room.all.availability[(u, file)] in {Ready, DownloadingPlayable}
            && u in s.room.positions && s.room.positions[u].file == file
         :: s.room.positions[u].millis
  }

  /** Once playback has really resumed after an outage pause, the position source
      becomes one fixed viewer. */
  function PinRejoin<F(==)>(ties: Ties<F>, s: State<F>, now: nat, known: seq<KnownUser>): (r: State<F>)
    requires Total(ties.names)
    ensures s.lastIssued <= r.lastIssued && Quiet(s.room, r.room)
  {
    if s.room.authority.None? || !s.room.authority.value.value.Laggard? then s
    else
      var file := s.room.authority.value.value.file;
      if s.room.Playing() != Some(file) || !Active(s.room.Look(), WithKnown(s.Infos(), known, now)) then s
      else
        var pick := RejoinLaggard(ties.names, LoadedPositions(s, file));
        PutAuthority(ties, s, now, if pick.Some? then Anchor(pick.value, file) else FollowServer)
  }

  // ---- Handlers.

  function Register<F(==)>(s: State<F>, u: User, conn: nat, role: Role): State<F> {
    var peers := s.peers[u := Peer(conn, role, Present, None, None)];
    s.(peers := peers, graceFile := if exists v :: v in peers && peers[v].grace.Some? then s.graceFile else None)
  }

  /** The end of a session: a goodbye departs at once, a lost link may open a
      window.  `saved` says whether the last viewer left a position to save. */
  function Leave<F(==)>(
    ties: Ties<F>, s: State<F>, u: User, conn: nat, goodbye: bool, clock: Clock, known: seq<KnownUser>,
    saved: bool): (r: State<F>)
    ensures s.lastIssued <= r.lastIssued && Quiet(s.room, r.room)
  {
    if u !in s.peers || s.peers[u].conn != conn then s
    else
      var role := s.peers[u].role;
      var gone := s.(peers := s.peers[u := s.peers[u].(presence := if goodbye then Departed else Lost,
          lostAt := Some(clock(0)))]);
      var kept := if saved then PutOther(gone, clock(1)) else gone;
      if role != Interactive then kept
      else if goodbye then TakeAuthority(ties, ForcePause(ties, kept, n => clock(n + 2)), clock(4), u)
      else
        var file := Judge(kept.room, s.Infos(), known, clock(2));
        var after := if file.Some?
            then OpenWindow(kept, u, file.value, clock(2)) else ForcePause(ties, kept, n => clock(n + 3));
        TakeAuthority(ties, after, clock(5), u)
  }

  const DEPART_AFTER_MILLIS := 30_000

  predicate Promotes(p: Peer, now: nat) {
    p.presence == Lost && p.lostAt.Some? &&
        (if now >= p.lostAt.value then now - p.lostAt.value else 0) >= DEPART_AFTER_MILLIS
  }

  /** Long-lost peers depart; whoever of them held the authority loses it. */
  function SweepDeparted<F(==)>(ties: Ties<F>, s: State<F>, clock: Clock): (r: State<F>)
    ensures s.lastIssued <= r.lastIssued && Quiet(s.room, r.room)
  {
    var swept := s.(peers := map u | u in s.peers ::
                      if Promotes(s.peers[u], clock(0)) then s.peers[u].(presence := Departed) else s.peers[u]);
    if exists u :: u in s.peers && Promotes(s.peers[u], clock(0)) && s.peers[u].role == Interactive && Holds(s.room, u)
    then PutAuthority(ties, swept, clock(1), FollowServer) else swept
  }

  predicate Expired<F(==)>(s: State<F>, now: nat) {
    exists u :: u in s.peers && s.peers[u].grace.Some? && s.peers[u].grace.value <= now
  }

  function SweepGrace<F(==)>(ties: Ties<F>, s: State<F>, clock: Clock): (r: State<F>)
    ensures s.lastIssued <= r.lastIssued && Quiet(s.room, r.room)
  {
    if Expired(s, clock(0)) then ForcePause(ties, s, n => clock(n + 1)) else s
  }

  /** Raising the floor to a client's timestamp. */
  function Observe<F(==)>(s: State<F>, ts: nat): (r: State<F>)
    ensures s.lastIssued <= r.lastIssued && Quiet(s.room, r.room)
  {
    s.(lastIssued := Max(s.lastIssued, ts))
  }

  /** What follows an applied client op or merge. */
  function Settle<F(==)>(
    ties: Ties<F>, s: State<F>, moved: bool, saved: bool, clock: Clock, known: seq<KnownUser>): (r: State<F>)
    requires Total(ties.names)
    ensures s.lastIssued <= r.lastIssued && Quiet(s.room, r.room)
  {
    var kept := if moved && saved then PutOther(s, clock(0)) else s;
    var led := if moved then PutAuthority(ties, kept, clock(1), FollowServer) else kept;
    PinRejoin(ties, Reconcile(ties, led, clock(2)), clock(3), known)
  }

  predicate IsFresh<V>(less: Order<V>, cell: Cell<V>, lww: Lww<V>) {
    cell.None? || Before(less, cell.value, lww)
  }

  /** A client's write to one of the registers, or to anything else. */
  datatype Write<!F(==)> =
    | SetNowPlaying(playing: Lww<Option<F>>)
    | SetIntent(intent: Lww<Intent>)
    | SetAuthority(authority: Lww<Authority<F>>)
    | SetNext(entry: Entry, episode: Lww<Option<nat>>)
    | SetOther(all: Commitments<F>, positions: map<User, Position<F>>, playlist: seq<F>, claim: F -> Option<Claim>,
        time: nat)
  {
    function Time(): nat {
      match this
      case SetNowPlaying(w) => w.timestamp
      case SetIntent(w) => w.timestamp
      case SetAuthority(w) => w.timestamp
      case SetNext(_, w) => w.timestamp
      case SetOther(_, _, _, _, time) => time
    }
  }

  function Written<F(==)>(ties: Ties<F>, room: Room<F>, w: Write<F>): Room<F> {
    match w
    case SetNowPlaying(lww) => room.(nowPlaying := Put(ties.nowPlaying, room.nowPlaying, lww))
    case SetIntent(lww) => room.(intent := Put(ties.intent, room.intent, lww))
    case SetAuthority(lww) => room.(authority := Put(ties.authority, room.authority, lww))
    case SetNext(e, lww) =>
      var cell := Put(ties.episodes, if e in room.list.next then Some(room.list.next[e]) else None, lww);
      room.(list := room.list.(next := room.list.next[e := cell.value]), newest := Max(room.newest, lww.timestamp))
    case SetOther(all, positions, playlist, claim, time) =>
      room.(all := all, positions := positions, playlist := playlist,
            list := room.list.(claim := claim), newest := Max(room.newest, time))
  }

  /** Whether this copy of the write changes anything.  A playlist lists a file
      once, so no write makes it otherwise. */
  predicate Applies<F(==)>(ties: Ties<F>, room: Room<F>, w: Write<F>) {
    match w
    case SetNowPlaying(lww) => IsFresh(ties.nowPlaying, room.nowPlaying, lww)
    case SetIntent(lww) => IsFresh(ties.intent, room.intent, lww)
    case SetAuthority(lww) => IsFresh(ties.authority, room.authority, lww)
    case SetNext(e, lww) => IsFresh(ties.episodes, if e in room.list.next then Some(room.list.next[e]) else None, lww)
    case SetOther(_, _, playlist, _, _) => Unique(playlist)
  }

  /** A client op; one from before a compaction is only observed. */
  function ClientOp<F(==)>(
    ties: Ties<F>, s: State<F>, w: Write<F>, stale: bool, saved: bool, clock: Clock,
    known: seq<KnownUser>): (r: State<F>)
    requires Total(ties.names)
    ensures s.lastIssued <= r.lastIssued
  {
    var seen := Observe(s, w.Time());
    if stale || !Applies(ties, s.room, w) then seen
    else Settle(ties, seen.(room := Written(ties, s.room, w)), w.SetNowPlaying?, saved, clock, known)
  }

  function JoinedCells<K(==), V>(less: Order<V>, a: map<K, Lww<V>>, b: map<K, Lww<V>>): map<K, Lww<V>> {
    map k | k in a.Keys + b.Keys ::
      Join(less, if k in a then Some(a[k]) else None, if k in b then Some(b[k]) else None).value
  }

  /** The registers and the List's cells joined; `all` carries the other merged
      collections. */
  function MergedRoom<F(==)>(ties: Ties<F>, room: Room<F>, other: Room<F>, all: Room<F>): Room<F> {
    Room(Join(ties.nowPlaying, room.nowPlaying, other.nowPlaying),
         Join(ties.intent, room.intent, other.intent),
         Join(ties.authority, room.authority, other.authority),
         all.all, all.positions, all.playlist,
         Progress(all.list.claim,
                  JoinedCells(ties.episodes, room.list.next, other.list.next),
                  JoinedCells(ties.flags, room.list.watched, other.list.watched)),
         Max(room.newest, other.newest))
  }

  /** What every stored state is: a playlist without repeats, and no cell newer
      than `newest`. */
  predicate IsState<F(==)>(room: Room<F>) {
    && Unique(room.playlist)
    && (forall e :: e in room.list.next ==> room.list.next[e].timestamp <= room.newest)
    && (forall f :: f in room.list.watched ==> room.list.watched[f].timestamp <= room.newest)
  }

  /** A client's whole state; a value that is no state cannot arrive. */
  function ClientMerge<F(==)>(
    ties: Ties<F>, s: State<F>, other: Room<F>, all: Room<F>, saved: bool, clock: Clock, known: seq<KnownUser>)
    : (r: State<F>)
    requires Total(ties.names)
    ensures s.lastIssued <= r.lastIssued
  {
    if !IsState(other) || !Unique(all.playlist) then s
    else
      var room := MergedRoom(ties, s.room, other, all);
      Settle(ties, Observe(s, Newest(room)).(room := room), room.Playing() != s.room.Playing(), saved, clock, known)
  }

  // ---- The end of a file.

  predicate Unique<F(==)>(playlist: seq<F>) {
    forall i, j :: 0 <= i < j < |playlist| ==> playlist[i] != playlist[j]
  }

  function NextAfter<F(==)>(playlist: seq<F>, file: F): Option<F> {
    if playlist == [] then None
    else if playlist[0] == file then if |playlist| > 1 then Some(playlist[1]) else None
    else NextAfter(playlist[1..], file)
  }

  /** Only a viewer who is watching ends the file for everyone. */
  predicate Ends<F(==)>(s: State<F>, u: User, role: Role, file: F) {
    && role == Interactive && s.room.Playing() == Some(file)
    && ManualOf(s.room.Look(), u).None? && EffectiveWatch(s.room.Look(), u) != NotWatching
  }

  function EndOfFile<F(==)>(
    ties: Ties<F>, s: State<F>, u: User, role: Role, file: F, saved: bool, clock: Clock): (r: State<F>)
    ensures s.lastIssued <= r.lastIssued
  {
    if !Ends(s, u, role, file) then s
    else
      var kept := if saved then PutOther(s, clock(0)) else s;
      var watched := PutWatched(ties, kept, clock(1), file, true);
      var moved := PutNowPlaying(ties, watched, clock(2), NextAfter(s.room.playlist, file));
      var paused := PutIntent(ties, moved, clock(3), Paused);
      var led := PutAuthority(ties, paused, clock(4), FollowServer);
      Reconcile(ties, Bump(ties, led, clock(5), s.room.list, file), clock(6))
  }

  /** A manual mark; repeating one changes nothing. */
  function MarkWatched<F(==)>(ties: Ties<F>, s: State<F>, file: F, flag: bool, clock: Clock): (r: State<F>)
    ensures s.lastIssued <= r.lastIssued
  {
    if s.room.list.Watched(file) == Some(flag) then s
    else
      var marked := PutWatched(ties, s, clock(0), file, flag);
      if flag then Bump(ties, marked, clock(1), s.room.list, file) else marked
  }

  /** The List's cells written again with one new stamp; an unset flag is dropped. */
  function Restamped<F(==)>(list: Progress<F>, ts: nat): Progress<F> {
    Progress(list.claim,
             map e | e in list.next :: Lww(ts, list.next[e].value),
             map f | f in list.watched && list.watched[f].value :: Lww(ts, true))
  }

  /** Compaction writes everything again with new stamps, the registers in this
      order, and forgets the acknowledged absences. */
  function Compact<F(==)>(ties: Ties<F>, s: State<F>, clock: Clock): (r: State<F>)
    ensures s.lastIssued <= r.lastIssued
  {
    var empty := s.(room := s.room.(nowPlaying := None, intent := None, authority := None, newest := 0,
                                    all := s.room.all.(acknowledged := {})));
    var playing := PutNowPlaying(ties, PutOther(empty, clock(0)), clock(1), s.room.Playing());
    var led := match s.room.authority
               case Some(a) => PutAuthority(ties, playing, clock(2), a.value)
               case None => playing;
    var rest := PutOther(PutIntent(ties, led, clock(3), s.room.Look().intent), clock(4));
    rest.(room := rest.room.(list := Restamped(s.room.list, rest.room.newest)))
  }

  datatype Event<!F(==)> =
    | Joins(user: User, conn: nat, role: Role)
    | Leaves(user: User, conn: nat, goodbye: bool, clock: Clock, known: seq<KnownUser>, saved: bool)
    | DepartedTick(clock: Clock)
    | GraceTick(clock: Clock)
    | Op(write: Write<F>, stale: bool, saved: bool, clock: Clock, known: seq<KnownUser>)
    | Merges(other: Room<F>, all: Room<F>, saved: bool, clock: Clock, known: seq<KnownUser>)
    | Eof(user: User, role: Role, file: F, saved: bool, clock: Clock)
    | Marks(file: F, flag: bool, clock: Clock)
    | Compacts(clock: Clock)

  function Next<F(==)>(ties: Ties<F>, s: State<F>, e: Event<F>): (r: State<F>)
    requires Total(ties.names)
    ensures s.lastIssued <= r.lastIssued
  {
    match e
    case Joins(u, conn, role) => Register(s, u, conn, role)
    case Leaves(u, conn, goodbye, clock, known, saved) => Leave(ties, s, u, conn, goodbye, clock, known, saved)
    case DepartedTick(clock) => SweepDeparted(ties, s, clock)
    case GraceTick(clock) => SweepGrace(ties, s, clock)
    case Op(w, stale, saved, clock, known) => ClientOp(ties, s, w, stale, saved, clock, known)
    case Merges(other, all, saved, clock, known) => ClientMerge(ties, s, other, all, saved, clock, known)
    case Eof(u, role, file, saved, clock) => EndOfFile(ties, s, u, role, file, saved, clock)
    case Marks(file, flag, clock) => MarkWatched(ties, s, file, flag, clock)
    case Compacts(clock) => Compact(ties, s, clock)
  }

  function Run<F(==)>(ties: Ties<F>, s: State<F>, events: seq<Event<F>>): State<F>
    requires Total(ties.names)
    decreases |events|
  {
    if events == [] then s else Run(ties, Next(ties, s, events[0]), events[1..])
  }

  // ---- The invariant.

  /** No timestamp in the state is ahead of the last stamp. */
  ghost predicate Floor<F>(s: State<F>) {
    Newest(s.room) <= s.lastIssued
  }

  /** A file is recorded exactly if a window is open, and windows belong to
      absent viewers. */
  ghost predicate Windows<F>(s: State<F>) {
    && (s.graceFile.Some? <==> exists u :: u in s.peers && s.peers[u].grace.Some?)
    && (forall u :: u in s.peers && s.peers[u].grace.Some? ==>
       s.peers[u].presence != Present && s.peers[u].role == Interactive)
  }

  /** While a window is open the room plays its file. */
  ghost predicate PlaysOn<F>(s: State<F>) {
    s.graceFile.Some? ==> s.room.Look().intent == Playing && s.room.Playing() == s.graceFile
  }

  ghost predicate Inv<F>(s: State<F>) {
    Floor(s) && Windows(s) && PlaysOn(s)
  }

  // ---- Server writes win.

  lemma PutIntentWins<F>(ties: Ties<F>, s: State<F>, now: nat, v: Intent)
    requires Floor(s)
    ensures var s' := PutIntent(ties, s, now, v);
            Floor(s') && s'.room == s.room.(intent := Some(Lww(s'.lastIssued, v))) &&
                s' == s.(room := s'.room, lastIssued := s'.lastIssued)
  {
  }

  lemma PutNowPlayingWins<F>(ties: Ties<F>, s: State<F>, now: nat, v: Option<F>)
    requires Floor(s)
    ensures var s' := PutNowPlaying(ties, s, now, v);
            Floor(s') && s'.room == s.room.(nowPlaying := Some(Lww(s'.lastIssued, v))) &&
                s' == s.(room := s'.room, lastIssued := s'.lastIssued)
  {
  }

  lemma PutAuthorityWins<F>(ties: Ties<F>, s: State<F>, now: nat, v: Authority<F>)
    requires Floor(s)
    ensures var s' := PutAuthority(ties, s, now, v);
            Floor(s') && s'.room == s.room.(authority := Some(Lww(s'.lastIssued, v))) &&
                s' == s.(room := s'.room, lastIssued := s'.lastIssued)
  {
  }

  lemma CloseKeeps<F>(s: State<F>)
    ensures var s' := CloseWindows(s);
            Windows(s') && PlaysOn(s') && !AnyOpen(s') && s'.room == s.room && s'.lastIssued == s.lastIssued
  {
  }

  lemma FollowKeeps<F>(ties: Ties<F>, s: State<F>, now: nat, file: F)
    requires Inv(s)
    ensures var s' := FollowLaggard(ties, s, now, file);
            && Inv(s') && s'.peers == s.peers && s'.graceFile == s.graceFile
            && s'.room == s.room.(authority := s'.room.authority)
            && Leader(s'.room) == if s.room.Playing() == Some(file) then Some(Laggard(file)) else Leader(s.room)
  {
    PutAuthorityWins(ties, s, now, Laggard(file));
  }

  /** Who leads: the authority's value, if it was ever written. */
  function Leader<F>(room: Room<F>): Option<Authority<F>> {
    if room.authority.Some? then Some(room.authority.value.value) else None
  }

  /** A forced pause pauses, ends every window and leaves presence alone; over an
      open window the room then follows whoever is furthest behind in its file. */
  lemma ForcePauseDone<F>(ties: Ties<F>, s: State<F>, clock: Clock)
    requires Floor(s) && Windows(s)
    ensures var s' := ForcePause(ties, s, clock);
            && Inv(s') && !AnyOpen(s') && s'.room.Look().intent == Paused
            && s'.peers.Keys == s.peers.Keys && (forall u :: u in s.peers ==> s'.peers[u] == s.peers[u].(grace := None))
            && Leader(s'.room) == if s.graceFile.Some? && s.room.Playing() == s.graceFile
                                  then Some(Laggard(s.graceFile.value)) else Leader(s.room)
  {
    var paused := PutIntent(ties, s, clock(0), Paused);
    PutIntentWins(ties, s, clock(0), Paused);
    if AnyOpen(paused) {
      CloseKeeps(paused);
      if paused.graceFile.Some? {
        FollowKeeps(ties, CloseWindows(paused), clock(1), paused.graceFile.value);
      }
    }
  }

  // ---- Every handler keeps the invariant.

  lemma PutOtherKeeps<F>(s: State<F>, now: nat)
    ensures var s' := PutOther(s, now);
            && (Floor(s) ==> Floor(s')) && (Windows(s) ==> Windows(s')) && (PlaysOn(s) ==> PlaysOn(s'))
            && s'.room == s.room.(newest := s'.room.newest) && s' == s.(room := s'.room, lastIssued := s'.lastIssued)
  {
  }

  /** Windows stay as they are while their file plays; a move ends them, and so
      does a pause, after which the room follows whoever is furthest behind. */
  lemma ReconcileKeeps<F>(ties: Ties<F>, s: State<F>, now: nat)
    requires Floor(s) && Windows(s)
    ensures var s' := Reconcile(ties, s, now);
            && Inv(s') && s'.room == s.room.(authority := s'.room.authority)
            && (PlaysOn(s) ==> s' == s)
            && (!PlaysOn(s) ==> !AnyOpen(s'))
            && (!PlaysOn(s) ==> Leader(s'.room) == if s.room.Playing() == s.graceFile
                                                   then Some(Laggard(s.graceFile.value)) else Leader(s.room))
  {
    if s.graceFile.Some? && !(s.room.Look().intent == Playing && s.room.Playing() == s.graceFile) {
      CloseKeeps(s);
      FollowKeeps(ties, CloseWindows(s), now, s.graceFile.value);
    }
  }

  lemma TakeAuthorityKeeps<F>(ties: Ties<F>, s: State<F>, now: nat, u: User)
    requires Inv(s)
    ensures var s' := TakeAuthority(ties, s, now, u);
            && Inv(s') && !Holds(s'.room, u) && s'.peers == s.peers && s'.graceFile == s.graceFile
            && s'.room == s.room.(authority := s'.room.authority)
            && Leader(s'.room) == match Leader(s.room)
                                  case Some(FollowUser(v)) => if v == u then Some(FollowServer) else Leader(s.room)
                                  case Some(Anchor(v, _)) => if v == u then Some(FollowServer) else Leader(s.room)
                                  case _ => Leader(s.room)
  {
    PutAuthorityWins(ties, s, now, FollowServer);
  }

  lemma PinKeeps<F>(ties: Ties<F>, s: State<F>, now: nat, known: seq<KnownUser>)
    requires Total(ties.names) && Inv(s)
    ensures Inv(PinRejoin(ties, s, now, known))
  {
    if s.room.authority.Some? && s.room.authority.value.value.Laggard? {
      var file := s.room.authority.value.value.file;
      var pick := RejoinLaggard(ties.names, LoadedPositions(s, file));
      PutAuthorityWins(ties, s, now, if pick.Some? then Anchor(pick.value, file) else FollowServer);
    }
  }

  lemma RegisterKeeps<F>(s: State<F>, u: User, conn: nat, role: Role)
    requires Inv(s)
    ensures Inv(Register(s, u, conn, role))
  {
    var s' := Register(s, u, conn, role);
    if v :| v in s'.peers && s'.peers[v].grace.Some? {
      assert v in s.peers && s.peers[v].grace.Some?;
    }
  }

  /** The registry after the connection is gone. */
  lemma GoneKeeps<F>(s: State<F>, u: User, presence: Presence, at: nat)
    requires Inv(s) && u in s.peers && presence != Present
    ensures Inv(s.(peers := s.peers[u := s.peers[u].(presence := presence, lostAt := Some(at))]))
  {
    var s' := s.(peers := s.peers[u := s.peers[u].(presence := presence, lostAt := Some(at))]);
    forall v ensures v in s.peers && s.peers[v].grace.Some? <==> v in s'.peers && s'.peers[v].grace.Some? {
    }
  }

  lemma JudgedPlays<F>(room: Room<F>, before: Infos, known: seq<KnownUser>, now: nat)
    ensures var file := Judge(room, before, known, now);
            file.Some? ==> room.Look().intent == Playing && room.Playing() == file
  {
  }

  lemma OpenKeeps<F>(s: State<F>, u: User, file: F, now: nat)
    requires Floor(s) && Windows(s) && u in s.peers && s.peers[u].role == Interactive && s.peers[u].presence != Present
    ensures var s' := OpenWindow(s, u, file, now);
            Floor(s') && Windows(s') &&
                (PlaysOn(s') <==> s.room.Look().intent == Playing && s.room.Playing() == Some(file))
  {
    var s' := OpenWindow(s, u, file, now);
    assert u in s'.peers && s'.peers[u].grace.Some?;
  }

  lemma LeaveKeeps<F>(
    ties: Ties<F>, s: State<F>, u: User, conn: nat, goodbye: bool, clock: Clock, known: seq<KnownUser>, saved: bool)
    requires Inv(s)
    ensures Inv(Leave(ties, s, u, conn, goodbye, clock, known, saved))
  {
    if u in s.peers && s.peers[u].conn == conn {
      var presence := if goodbye then Departed else Lost;
      var gone := s.(peers := s.peers[u := s.peers[u].(presence := presence, lostAt := Some(clock(0)))]);
      GoneKeeps(s, u, presence, clock(0));
      PutOtherKeeps(gone, clock(1));
      var kept := if saved then PutOther(gone, clock(1)) else gone;
      if s.peers[u].role == Interactive {
        if goodbye {
          ForcePauseDone(ties, kept, n => clock(n + 2));
          TakeAuthorityKeeps(ties, ForcePause(ties, kept, n => clock(n + 2)), clock(4), u);
        } else {
          LostKeeps(ties, kept, s.Infos(), u, known, clock);
        }
      }
    }
  }

  /** The second half of a lost connection, after the registry was updated. */
  lemma LostKeeps<F>(ties: Ties<F>, kept: State<F>, before: Infos, u: User, known: seq<KnownUser>, clock: Clock)
    requires Inv(kept) && u in kept.peers && kept.peers[u].role == Interactive && kept.peers[u].presence == Lost
    ensures var file := Judge(kept.room, before, known, clock(2));
            var after := if file.Some?
                then OpenWindow(kept, u, file.value, clock(2)) else ForcePause(ties, kept, n => clock(n + 3));
            Inv(after) && Inv(TakeAuthority(ties, after, clock(5), u))
  {
    var file := Judge(kept.room, before, known, clock(2));
    if file.Some? {
      JudgedPlays(kept.room, before, known, clock(2));
      OpenKeeps(kept, u, file.value, clock(2));
      TakeAuthorityKeeps(ties, OpenWindow(kept, u, file.value, clock(2)), clock(5), u);
    } else {
      ForcePauseDone(ties, kept, n => clock(n + 3));
      TakeAuthorityKeeps(ties, ForcePause(ties, kept, n => clock(n + 3)), clock(5), u);
    }
  }

  lemma SweepDepartedKeeps<F>(ties: Ties<F>, s: State<F>, clock: Clock)
    requires Inv(s)
    ensures Inv(SweepDeparted(ties, s, clock))
  {
    var swept := s.(peers := map u | u in s.peers ::
                      if Promotes(s.peers[u], clock(0)) then s.peers[u].(presence := Departed) else s.peers[u]);
    forall v ensures v in s.peers && s.peers[v].grace.Some? <==> v in swept.peers && swept.peers[v].grace.Some? {
    }
    assert Inv(swept);
    PutAuthorityWins(ties, swept, clock(1), FollowServer);
  }

  lemma SweepGraceKeeps<F>(ties: Ties<F>, s: State<F>, clock: Clock)
    requires Inv(s)
    ensures var s' := SweepGrace(ties, s, clock);
            Inv(s') && !Expired(s', clock(0)) &&
                (Expired(s, clock(0)) ==> s'.room.Look().intent == Paused && !AnyOpen(s'))
  {
    if Expired(s, clock(0)) {
      ForcePauseDone(ties, s, n => clock(n + 1));
    }
  }

  lemma SettleKeeps<F>(ties: Ties<F>, s: State<F>, moved: bool, saved: bool, clock: Clock, known: seq<KnownUser>)
    requires Total(ties.names) && Floor(s) && Windows(s)
    ensures Inv(Settle(ties, s, moved, saved, clock, known))
  {
    PutOtherKeeps(s, clock(0));
    var kept := if moved && saved then PutOther(s, clock(0)) else s;
    PutAuthorityWins(ties, kept, clock(1), FollowServer);
    var led := if moved then PutAuthority(ties, kept, clock(1), FollowServer) else kept;
    ReconcileKeeps(ties, led, clock(2));
    PinKeeps(ties, Reconcile(ties, led, clock(2)), clock(3), known);
  }

  lemma ClientOpKeeps<F>(
    ties: Ties<F>, s: State<F>, w: Write<F>, stale: bool, saved: bool, clock: Clock, known: seq<KnownUser>)
    requires Total(ties.names) && Inv(s)
    ensures Inv(ClientOp(ties, s, w, stale, saved, clock, known))
  {
    if !stale && Applies(ties, s.room, w) {
      SettleKeeps(ties, Observe(s, w.Time()).(room := Written(ties, s.room, w)), w.SetNowPlaying?, saved, clock, known);
    }
  }

  lemma ClientMergeKeeps<F>(
    ties: Ties<F>, s: State<F>, other: Room<F>, all: Room<F>, saved: bool, clock: Clock, known: seq<KnownUser>)
    requires Total(ties.names) && Inv(s)
    ensures Inv(ClientMerge(ties, s, other, all, saved, clock, known))
  {
    if IsState(other) && Unique(all.playlist) {
      var room := MergedRoom(ties, s.room, other, all);
      SettleKeeps(ties, Observe(s, Newest(room)).(room := room), room.Playing() != s.room.Playing(), saved, clock,
          known);
    }
  }

  lemma BumpKeeps<F>(ties: Ties<F>, s: State<F>, now: nat, list: Progress<F>, file: F)
    ensures var s' := Bump(ties, s, now, list, file);
            && (Floor(s) ==> Floor(s')) && (Windows(s) ==> Windows(s')) && (PlaysOn(s) ==> PlaysOn(s'))
            && s'.room == s.room.(newest := s'.room.newest, list := s'.room.list)
  {
  }

  lemma PutWatchedKeeps<F>(ties: Ties<F>, s: State<F>, now: nat, file: F, v: bool)
    ensures var s' := PutWatched(ties, s, now, file, v);
            && (Floor(s) ==> Floor(s')) && (Windows(s) ==> Windows(s')) && (PlaysOn(s) ==> PlaysOn(s'))
            && s'.room == s.room.(newest := s'.room.newest, list := s'.room.list)
  {
  }

  lemma MarkKeeps<F>(ties: Ties<F>, s: State<F>, file: F, flag: bool, clock: Clock)
    requires Inv(s)
    ensures var s' := MarkWatched(ties, s, file, flag, clock); Inv(s') && s'.room.Look() == s.room.Look()
  {
    PutWatchedKeeps(ties, s, clock(0), file, flag);
    BumpKeeps(ties, PutWatched(ties, s, clock(0), file, flag), clock(1), s.room.list, file);
  }

  lemma EndOfFileKeeps<F>(ties: Ties<F>, s: State<F>, u: User, role: Role, file: F, saved: bool, clock: Clock)
    requires Inv(s)
    ensures var s' := EndOfFile(ties, s, u, role, file, saved, clock);
            Inv(s') && (Ends(s, u, role, file) ==> s'.room.Playing() == NextAfter(s.room.playlist, file) &&
                                                   s'.room.Look().intent == Paused && !AnyOpen(s'))
  {
    if Ends(s, u, role, file) {
      PutOtherKeeps(s, clock(0));
      var kept := if saved then PutOther(s, clock(0)) else s;
      PutWatchedKeeps(ties, kept, clock(1), file, true);
      var moved := MovedOn(ties, PutWatched(ties, kept, clock(1), file, true), NextAfter(s.room.playlist, file), clock);
      BumpKeeps(ties, moved, clock(5), s.room.list, file);
      var bumped := Bump(ties, moved, clock(5), s.room.list, file);
      ReconcileKeeps(ties, bumped, clock(6));
      ReconcileStops(ties, bumped, clock(6));
    }
  }

  /** The register writes of an end of file. */
  lemma MovedOn<F>(ties: Ties<F>, watched: State<F>, next: Option<F>, clock: Clock) returns (s': State<F>)
    requires Floor(watched) && Windows(watched)
    ensures var moved := PutNowPlaying(ties, watched, clock(2), next);
            s' == PutAuthority(ties, PutIntent(ties, moved, clock(3), Paused), clock(4), FollowServer)
    ensures Floor(s') && Windows(s') && s'.room.Playing() == next && s'.room.Look().intent == Paused
    ensures Leader(s'.room) == Some(FollowServer)
  {
    PutNowPlayingWins(ties, watched, clock(2), next);
    var moved := PutNowPlaying(ties, watched, clock(2), next);
    PutIntentWins(ties, moved, clock(3), Paused);
    var paused := PutIntent(ties, moved, clock(3), Paused);
    PutAuthorityWins(ties, paused, clock(4), FollowServer);
    s' := PutAuthority(ties, paused, clock(4), FollowServer);
  }

  lemma ReconcileStops<F>(ties: Ties<F>, s: State<F>, now: nat)
    requires Floor(s) && Windows(s) && s.room.Look().intent == Paused
    ensures var s' := Reconcile(ties, s, now);
            !AnyOpen(s') && s'.room.Playing() == s.room.Playing() && s'.room.Look().intent == Paused
  {
    if s.graceFile.Some? {
      CloseKeeps(s);
      FollowKeeps(ties, CloseWindows(s), now, s.graceFile.value);
    }
  }

  /** Compaction keeps what gating sees, except that nobody is excused any more by
      an acknowledgement. */
  lemma CompactKeeps<F>(ties: Ties<F>, s: State<F>, clock: Clock)
    requires Inv(s)
    ensures var s', view := Compact(ties, s, clock), s.room.Look();
            && Inv(s') && s'.peers == s.peers && s'.graceFile == s.graceFile
            && s'.room.Look() == view.(all := view.all.(acknowledged := {}))
  {
    var empty := s.(room := s.room.(nowPlaying := None, intent := None, authority := None, newest := 0,
                                    all := s.room.all.(acknowledged := {})));
    PutOtherKeeps(empty, clock(0));
    var listed := PutOther(empty, clock(0));
    PutNowPlayingWins(ties, listed, clock(1), s.room.Playing());
    var playing := PutNowPlaying(ties, listed, clock(1), s.room.Playing());
    if s.room.authority.Some? {
      PutAuthorityWins(ties, playing, clock(2), s.room.authority.value.value);
    }
    var led := match s.room.authority
               case Some(a) => PutAuthority(ties, playing, clock(2), a.value)
               case None => playing;
    PutIntentWins(ties, led, clock(3), s.room.Look().intent);
    PutOtherKeeps(PutIntent(ties, led, clock(3), s.room.Look().intent), clock(4));
  }

  lemma StepKeeps<F>(ties: Ties<F>, s: State<F>, e: Event<F>)
    requires Total(ties.names) && Inv(s)
    ensures Inv(Next(ties, s, e))
  {
    match e
    case Joins(u, conn, role) => RegisterKeeps(s, u, conn, role);
    case Leaves(u, conn, goodbye, clock, known, saved) => LeaveKeeps(ties, s, u, conn, goodbye, clock, known, saved);
    case DepartedTick(clock) => SweepDepartedKeeps(ties, s, clock);
    case GraceTick(clock) => SweepGraceKeeps(ties, s, clock);
    case Op(w, stale, saved, clock, known) => ClientOpKeeps(ties, s, w, stale, saved, clock, known);
    case Merges(other, all, saved, clock, known) => ClientMergeKeeps(ties, s, other, all, saved, clock, known);
    case Eof(u, role, file, saved, clock) => EndOfFileKeeps(ties, s, u, role, file, saved, clock);
    case Marks(file, flag, clock) => MarkKeeps(ties, s, file, flag, clock);
    case Compacts(clock) => CompactKeeps(ties, s, clock);
  }

  /** The invariant over every run of the server. */
  lemma {:induction false} RunKeeps<F>(ties: Ties<F>, s: State<F>, events: seq<Event<F>>)
    requires Total(ties.names) && Inv(s)
    ensures Inv(Run(ties, s, events))
    decreases |events|
  {
    if events != [] {
      StepKeeps(ties, s, events[0]);
      RunKeeps(ties, Next(ties, s, events[0]), events[1..]);
    }
  }

  // ---- What every run promises.

  /** A fresh server on a stored state: the floor is the state's newest timestamp. */
  function Start<F(==)>(room: Room<F>): State<F> {
    State(map[], None, room, Newest(room))
  }

  lemma ReachableKeeps<F>(ties: Ties<F>, room: Room<F>, events: seq<Event<F>>)
    requires Total(ties.names)
    ensures Inv(Run(ties, Start(room), events))
  {
    RunKeeps(ties, Start(room), events);
  }

  /** Stamps never go back, whatever the clock does. */
  lemma {:induction false} StampsAscend<F>(ties: Ties<F>, s: State<F>, events: seq<Event<F>>, now: nat)
    requires Total(ties.names)
    ensures s.lastIssued <= Run(ties, s, events).lastIssued < Stamp(Run(ties, s, events).lastIssued, now)
    decreases |events|
  {
    if events != [] {
      StampsAscend(ties, Next(ties, s, events[0]), events[1..], now);
    }
  }

  /** When a viewer's link is lost, either the video was playing and goes on
      playing at that instant with a window on that viewer, or it is paused and no
      window is left. */
  lemma DropDichotomy<F>(ties: Ties<F>, s: State<F>, u: User, clock: Clock, saved: bool,
                         all: seq<KnownUser>, known: seq<KnownUser>, known': seq<KnownUser>)
    requires Inv(s) && u in s.peers && s.peers[u].role == Interactive && Offline(known, all, s.Infos())
    requires Offline(known', all, Leave(ties, s, u, s.peers[u].conn, false, clock, known, saved).Infos())
    ensures var s' := Leave(ties, s, u, s.peers[u].conn, false, clock, known, saved);
            && u in s'.peers && s'.peers[u].presence == Lost && !Holds(s'.room, u)
            && if Active(s.room.Look(), WithKnown(s.Infos(), known, clock(2)))
               then && s'.peers[u].grace == Some(clock(2) + GRACE_MILLIS)
                    && Active(s'.room.Look(), WithKnown(s'.Infos(), known', clock(2)))
               else s'.room.Look().intent == Paused && !AnyOpen(s')
  {
    var gone := s.(peers := s.peers[u := s.peers[u].(presence := Lost, lostAt := Some(clock(0)))]);
    GoneKeeps(s, u, Lost, clock(0));
    PutOtherKeeps(gone, clock(1));
    var kept := if saved then PutOther(gone, clock(1)) else gone;
    if Active(s.room.Look(), WithKnown(s.Infos(), known, clock(2))) {
      DropPlaysOn(ties, s, kept, u, clock, all, known, known');
    } else {
      ForcePauseDone(ties, kept, n => clock(n + 3));
      TakeAuthorityKeeps(ties, ForcePause(ties, kept, n => clock(n + 3)), clock(5), u);
    }
  }

  lemma DropPlaysOn<F>(ties: Ties<F>, s: State<F>, kept: State<F>, u: User, clock: Clock,
                       all: seq<KnownUser>, known: seq<KnownUser>, known': seq<KnownUser>)
    requires Inv(kept) && u in s.peers && s.peers[u].role == Interactive && kept.room.Look() == s.room.Look()
    requires kept.peers == s.peers[u := s.peers[u].(presence := Lost, lostAt := Some(clock(0)))]
    requires Active(s.room.Look(), WithKnown(s.Infos(), known, clock(2))) && Offline(known, all, s.Infos())
    requires var open := OpenWindow(kept, u, s.room.Playing().value, clock(2));
             Offline(known', all, TakeAuthority(ties, open, clock(5), u).Infos())
    ensures var open := OpenWindow(kept, u, s.room.Playing().value, clock(2));
            var s' := TakeAuthority(ties, open, clock(5), u);
            && Judge(kept.room, s.Infos(), known, clock(2)) == s.room.Playing()
            && s'.peers == open.peers && !Holds(s'.room, u)
            && Active(s'.room.Look(), WithKnown(s'.Infos(), known', clock(2)))
  {
    var until := clock(2) + GRACE_MILLIS;
    var open := OpenWindow(kept, u, s.room.Playing().value, clock(2));
    OpenKeeps(kept, u, s.room.Playing().value, clock(2));
    TakeAuthorityKeeps(ties, open, clock(5), u);
    assert open.Infos() == s.Infos()[u := Info(Interactive, Lost, Some(until))];
    WindowKeepsPlaying(s.room.Look(), s.Infos(), u, until, clock(2), all, known, known');
  }

  /** Departing later changes who blocks, never the intent. */
  lemma DepartureNeverPauses<F>(ties: Ties<F>, s: State<F>, clock: Clock)
    requires Inv(s)
    ensures var s' := SweepDeparted(ties, s, clock);
            && s'.room.Look() == s.room.Look() && s'.graceFile == s.graceFile
            && (forall u :: u in s.peers && Promotes(s.peers[u], clock(0)) && s.peers[u].role == Interactive ==>
               !Holds(s'.room, u))
  {
    var swept := s.(peers := map u | u in s.peers ::
                      if Promotes(s.peers[u], clock(0)) then s.peers[u].(presence := Departed) else s.peers[u]);
    PutAuthorityWins(ties, swept, clock(1), FollowServer);
  }

  /** A present viewer holds enough of the file to play it and last reported a
      position in it. */
  predicate HasLoaded<F(==)>(s: State<F>, file: F, u: User) {
    && u in s.peers && s.peers[u].presence == Present && s.peers[u].role == Interactive
    && u in s.room.positions && s.room.positions[u].file == file
    && (u, file) in s.room.all.availability
    && var held := s.room.all.availability[(u, file)]; held == Ready || held == DownloadingPlayable
  }

  /** Not so far behind any other of them that an outage could not explain it. */
  ghost predicate Explained<F>(s: State<F>, file: F, u: User) {
    && HasLoaded(s, file, u)
    && forall v :: HasLoaded(s, file, v) ==>
                     s.room.positions[u].millis + GRACE_MILLIS >= s.room.positions[v].millis
  }

  lemma LoadedAre<F>(s: State<F>, file: F, u: User)
    ensures u in LoadedPositions(s, file) <==> HasLoaded(s, file, u)
    ensures HasLoaded(s, file, u) ==> LoadedPositions(s, file)[u] == s.room.positions[u].millis
    ensures Near(LoadedPositions(s, file), u) <==> Explained(s, file, u)
  {
    forall v ensures v in LoadedPositions(s, file) <==> HasLoaded(s, file, v) {
    }
  }

  /** The room follows one viewer after an outage exactly when the video plays again,
      and then the furthest behind that an outage can explain, the first by name on
      ties; the server itself if nobody has the file loaded. */
  lemma AnchorsWhenResumed<F>(ties: Ties<F>, s: State<F>, now: nat, known: seq<KnownUser>)
    requires Total(ties.names) && Inv(s)
    ensures var s', playing := PinRejoin(ties, s, now, known), s.room.Playing();
            if playing.Some? && Leader(s.room) == Some(Laggard(playing.value))
               && Active(s.room.Look(), WithKnown(s.Infos(), known, now))
            then
              match Leader(s'.room)
              case Some(Anchor(u, file)) =>
                && file == playing.value && Explained(s, file, u)
                && (forall v :: Explained(s, file, v) && v != u ==>
                      var mine, theirs := s.room.positions[u].millis, s.room.positions[v].millis;
                      mine < theirs || (mine == theirs && ties.names(u, v)))
              case Some(FollowServer) => forall u :: !HasLoaded(s, playing.value, u)
              case _ => false
            else s' == s
  {
    if s.room.authority.Some? && s.room.authority.value.value.Laggard? {
      var file := s.room.authority.value.value.file;
      var pick := RejoinLaggard(ties.names, LoadedPositions(s, file));
      PutAuthorityWins(ties, s, now, if pick.Some? then Anchor(pick.value, file) else FollowServer);
      forall u ensures u in LoadedPositions(s, file) <==> HasLoaded(s, file, u)
        ensures HasLoaded(s, file, u) ==> LoadedPositions(s, file)[u] == s.room.positions[u].millis
        ensures Near(LoadedPositions(s, file), u) <==> Explained(s, file, u)
      {
        LoadedAre(s, file, u);
      }
    }
  }

  // ---- Every state of a run is a state.

  lemma QuietIsState<F>(room: Room<F>, room': Room<F>)
    requires IsState(room) && Quiet(room, room')
    ensures IsState(room')
  {
  }

  lemma PutWatchedIsState<F>(ties: Ties<F>, s: State<F>, now: nat, file: F, v: bool)
    requires IsState(s.room)
    ensures IsState(PutWatched(ties, s, now, file, v).room)
  {
  }

  lemma BumpIsState<F>(ties: Ties<F>, s: State<F>, now: nat, list: Progress<F>, file: F)
    requires IsState(s.room)
    ensures IsState(Bump(ties, s, now, list, file).room)
  {
  }

  lemma WrittenIsState<F>(ties: Ties<F>, room: Room<F>, w: Write<F>)
    requires IsState(room) && Applies(ties, room, w)
    ensures IsState(Written(ties, room, w))
  {
  }

  lemma MergedIsState<F>(ties: Ties<F>, room: Room<F>, other: Room<F>, all: Room<F>)
    requires IsState(room) && IsState(other) && Unique(all.playlist)
    ensures IsState(MergedRoom(ties, room, other, all))
  {
  }

  lemma EndOfFileIsState<F>(ties: Ties<F>, s: State<F>, u: User, role: Role, file: F, saved: bool, clock: Clock)
    requires IsState(s.room)
    ensures IsState(EndOfFile(ties, s, u, role, file, saved, clock).room)
  {
    if Ends(s, u, role, file) {
      var kept := if saved then PutOther(s, clock(0)) else s;
      QuietIsState(s.room, kept.room);
      PutWatchedIsState(ties, kept, clock(1), file, true);
      var moved := PutNowPlaying(ties, PutWatched(ties, kept, clock(1), file, true), clock(2),
          NextAfter(s.room.playlist, file));
      var led := PutAuthority(ties, PutIntent(ties, moved, clock(3), Paused), clock(4), FollowServer);
      assert IsState(moved.room);
      QuietIsState(moved.room, led.room);
      BumpIsState(ties, led, clock(5), s.room.list, file);
      QuietIsState(Bump(ties, led, clock(5), s.room.list, file).room,
          EndOfFile(ties, s, u, role, file, saved, clock).room);
    }
  }

  lemma MarkIsState<F>(ties: Ties<F>, s: State<F>, file: F, flag: bool, clock: Clock)
    requires IsState(s.room)
    ensures IsState(MarkWatched(ties, s, file, flag, clock).room)
  {
    PutWatchedIsState(ties, s, clock(0), file, flag);
    BumpIsState(ties, PutWatched(ties, s, clock(0), file, flag), clock(1), s.room.list, file);
  }

  lemma CompactIsState<F>(ties: Ties<F>, s: State<F>, clock: Clock)
    requires IsState(s.room)
    ensures IsState(Compact(ties, s, clock).room)
  {
  }

  lemma StepIsState<F>(ties: Ties<F>, s: State<F>, e: Event<F>)
    requires Total(ties.names) && IsState(s.room)
    ensures IsState(Next(ties, s, e).room)
  {
    match e
    case Op(w, stale, saved, clock, known) =>
      if !stale && Applies(ties, s.room, w) {
        WrittenIsState(ties, s.room, w);
        QuietIsState(Written(ties, s.room, w), Next(ties, s, e).room);
      }
    case Merges(other, all, saved, clock, known) =>
      if IsState(other) && Unique(all.playlist) {
        MergedIsState(ties, s.room, other, all);
        QuietIsState(MergedRoom(ties, s.room, other, all), Next(ties, s, e).room);
      }
    case Eof(u, role, file, saved, clock) => EndOfFileIsState(ties, s, u, role, file, saved, clock);
    case Marks(file, flag, clock) => MarkIsState(ties, s, file, flag, clock);
    case Compacts(clock) => CompactIsState(ties, s, clock);
    case _ => QuietIsState(s.room, Next(ties, s, e).room);
  }

  // ---- The states of a run.

  lemma {:induction false} RunSnoc<F>(ties: Ties<F>, s: State<F>, events: seq<Event<F>>, k: nat)
    requires Total(ties.names) && k < |events|
    ensures Run(ties, s, events[..k + 1]) == Next(ties, Run(ties, s, events[..k]), events[k])
    decreases k
  {
    if k == 0 {
      assert events[..1] == [events[0]];
    } else {
      RunSnoc(ties, Next(ties, s, events[0]), events[1..], k - 1);
      assert events[..k + 1][1..] == events[1..][..k] && events[..k][1..] == events[1..][..k - 1];
    }
  }

  /** Every state of a run from a state that keeps the invariant keeps it. */
  lemma {:induction false} RunSound<F>(ties: Ties<F>, s: State<F>, events: seq<Event<F>>)
    requires Total(ties.names) && Inv(s) && IsState(s.room)
    ensures Inv(Run(ties, s, events)) && IsState(Run(ties, s, events).room)
    decreases |events|
  {
    if events != [] {
      StepKeeps(ties, s, events[0]);
      StepIsState(ties, s, events[0]);
      RunSound(ties, Next(ties, s, events[0]), events[1..]);
    }
  }

  lemma {:induction false} LostBetween(p: nat -> bool, i: nat, j: nat) returns (k: nat)
    requires i < j && p(i) && !p(j)
    ensures i <= k < j && p(k) && !p(k + 1)
    decreases j - i
  {
    if p(i + 1) {
      k := LostBetween(p, i + 1, j);
    } else {
      k := i;
    }
  }

  /** Where a property that holds after `i` events and not after `j` is lost. */
  lemma Crossing<F>(
    ties: Ties<F>, s: State<F>, events: seq<Event<F>>, i: nat, j: nat, p: State<F> -> bool) returns (k: nat)
    requires Total(ties.names) && i < j <= |events| && p(Run(ties, s, events[..i])) && !p(Run(ties, s, events[..j]))
    ensures i <= k < j && p(Run(ties, s, events[..k])) && !p(Run(ties, s, events[..k + 1]))
  {
    k := LostBetween((n: nat) => n <= |events| && p(Run(ties, s, events[..n])), i, j);
  }

  // ---- The end of a file, however many report it and whatever happens between.

  /** The entry after this one, and nothing after the last. */
  lemma {:induction false} NextAfterIs<F>(playlist: seq<F>, i: nat)
    requires Unique(playlist) && i < |playlist|
    ensures NextAfter(playlist, playlist[i]) == if i + 1 < |playlist| then Some(playlist[i + 1]) else None
  {
    if i > 0 {
      NextAfterIs(playlist[1..], i - 1);
    }
  }

  /** Nothing after a file that is not listed. */
  lemma {:induction false} NothingAfter<F>(playlist: seq<F>, file: F)
    requires file !in playlist
    ensures NextAfter(playlist, file) == None
  {
    if playlist != [] {
      NothingAfter(playlist[1..], file);
    }
  }

  lemma NextIsAnother<F>(playlist: seq<F>, file: F)
    requires Unique(playlist)
    ensures NextAfter(playlist, file) != Some(file)
  {
    if file in playlist {
      var i :| 0 <= i < |playlist| && playlist[i] == file;
      NextAfterIs(playlist, i);
    } else {
      NothingAfter(playlist, file);
    }
  }

  /** The report ends the file. */
  ghost predicate Advances<F>(s: State<F>, e: Event<F>, file: F) {
    e.Eof? && e.file == file && Ends(s, e.user, e.role, file)
  }

  /** An event that can put a file on: a client's choice of it, a client's merge,
      or the end of the file before it. */
  ghost predicate PutsOn<F>(s: State<F>, e: Event<F>, file: F) {
    match e
    case Op(w, stale, _, _, _) => !stale && w.SetNowPlaying? && w.playing.value == Some(file)
    case Merges(_, _, _, _, _) => true
    case Eof(_, _, other, _, _) => Advances(s, e, other) && other != file &&
        NextAfter(s.room.playlist, other) == Some(file)
    case _ => false
  }

  /** Nothing else does. */
  lemma OnlyThosePutOn<F>(ties: Ties<F>, s: State<F>, e: Event<F>, file: F)
    requires Total(ties.names) && Inv(s) && s.room.Playing() != Some(file)
    requires Next(ties, s, e).room.Playing() == Some(file)
    ensures PutsOn(s, e, file)
  {
    match e
    case Eof(u, role, other, saved, clock) => EndOfFileKeeps(ties, s, u, role, other, saved, clock);
    case Compacts(clock) => CompactKeeps(ties, s, clock);
    case Marks(f, flag, clock) => MarkKeeps(ties, s, f, flag, clock);
    case _ =>
  }

  /** A report that takes effect moves off its file. */
  lemma AdvanceLeaves<F>(ties: Ties<F>, s: State<F>, e: Event<F>, file: F)
    requires Total(ties.names) && Inv(s) && IsState(s.room) && Advances(s, e, file)
    ensures Next(ties, s, e).room.Playing() == NextAfter(s.room.playlist, file) != Some(file)
  {
    EndOfFileKeeps(ties, s, e.user, e.role, file, e.saved, e.clock);
    NextIsAnother(s.room.playlist, file);
  }

  lemma OffAfter<F>(ties: Ties<F>, s: State<F>, events: seq<Event<F>>, i: nat, file: F)
    requires Total(ties.names) && Inv(s) && IsState(s.room) && i < |events|
    requires Advances(Run(ties, s, events[..i]), events[i], file)
    ensures Run(ties, s, events[..i + 1]).room.Playing() != Some(file)
  {
    RunSound(ties, s, events[..i]);
    RunSnoc(ties, s, events, i);
    AdvanceLeaves(ties, Run(ties, s, events[..i]), events[i], file);
  }

  lemma OnAgain<F>(ties: Ties<F>, s: State<F>, events: seq<Event<F>>, k: nat, file: F)
    requires Total(ties.names) && Inv(s) && IsState(s.room) && k < |events|
    requires Run(ties, s, events[..k]).room.Playing() != Some(file)
    requires Run(ties, s, events[..k + 1]).room.Playing() == Some(file)
    ensures PutsOn(Run(ties, s, events[..k]), events[k], file)
  {
    RunSound(ties, s, events[..k]);
    RunSnoc(ties, s, events, k);
    OnlyThosePutOn(ties, Run(ties, s, events[..k]), events[k], file);
  }

  function Off<F(==)>(file: F): State<F> -> bool {
    (s: State<F>) => s.room.Playing() != Some(file)
  }

  /** In every run, between two reports that both end one file, some event put the
      file on again, where it was not on before: a client's write of it, a merge,
      or the end of the file before it. */
  lemma EofAdvancesOnce<F>(ties: Ties<F>, s: State<F>, events: seq<Event<F>>, i: nat, j: nat, file: F)
    requires Total(ties.names) && Inv(s) && IsState(s.room) && i < j < |events|
    requires Advances(Run(ties, s, events[..i]), events[i], file)
    requires Advances(Run(ties, s, events[..j]), events[j], file)
    ensures exists k :: && i < k < j && PutsOn(Run(ties, s, events[..k]), events[k], file)
                        && Run(ties, s, events[..k]).room.Playing() != Some(file)
                        && Run(ties, s, events[..k + 1]).room.Playing() == Some(file)
  {
    OffAfter(ties, s, events, i, file);
    OnBefore(ties, s, events, j, file);
    var k := Crossing(ties, s, events, i + 1, j, Off(file));
    OnAgain(ties, s, events, k, file);
  }

  lemma OnBefore<F>(ties: Ties<F>, s: State<F>, events: seq<Event<F>>, j: nat, file: F)
    requires Total(ties.names) && j < |events| && Advances(Run(ties, s, events[..j]), events[j], file)
    ensures !Off(file)(Run(ties, s, events[..j]))
  {
  }

  // ---- The List's next episode.

  /** The event bumps `entry` from episode `n`. */
  ghost predicate Bumps<F>(s: State<F>, e: Event<F>, entry: Entry, n: nat) {
    match e
    case Eof(_, _, file, _, _) => Advances(s, e, file) && s.room.list.Advance(file) == Some(Claim(entry, n))
    case Marks(file, flag, _) =>
      flag && s.room.list.Watched(file) != Some(true) && s.room.list.Advance(file) == Some(Claim(entry, n))
    case _ => false
  }

  /** The entry's next episode is a number past `n`. */
  predicate Past<F(==)>(s: State<F>, entry: Entry, n: nat) {
    s.room.list.NextOf(entry).Some? && s.room.list.NextOf(entry).value > n
  }

  /** A client's write to the entry's progress, or a client's merge. */
  predicate MaySetBack<F(==)>(e: Event<F>, entry: Entry) {
    e.Merges? || (e.Op? && e.write.SetNext? && e.write.entry == entry)
  }

  lemma BumpMoves<F>(ties: Ties<F>, s: State<F>, now: nat, list: Progress<F>, file: F, entry: Entry)
    requires Newest(s.room) <= s.lastIssued && IsState(s.room)
    requires s.room.list.next == list.next
    ensures Bump(ties, s, now, list, file).room.list.NextOf(entry) == Bumped(list, file, entry)
  {
  }

  /** The state an end of file bumps from. */
  lemma BumpsFrom<F>(ties: Ties<F>, s: State<F>, file: F, saved: bool, clock: Clock) returns (led: State<F>)
    requires Inv(s) && IsState(s.room)
    ensures var kept := if saved then PutOther(s, clock(0)) else s;
            var watched := PutWatched(ties, kept, clock(1), file, true);
            var moved := PutNowPlaying(ties, watched, clock(2), NextAfter(s.room.playlist, file));
            led == PutAuthority(ties, PutIntent(ties, moved, clock(3), Paused), clock(4), FollowServer)
    ensures Newest(led.room) <= led.lastIssued && IsState(led.room) && led.room.list.next == s.room.list.next
  {
    PutOtherKeeps(s, clock(0));
    var kept := if saved then PutOther(s, clock(0)) else s;
    QuietIsState(s.room, kept.room);
    PutWatchedIsState(ties, kept, clock(1), file, true);
    PutWatchedKeeps(ties, kept, clock(1), file, true);
    var watched := PutWatched(ties, kept, clock(1), file, true);
    led := MovedOn(ties, watched, NextAfter(s.room.playlist, file), clock);
    LedIsState(ties, watched, NextAfter(s.room.playlist, file), clock);
  }

  /** An entry's next episode once `file` has been watched. */
  function Bumped<F(==)>(list: Progress<F>, file: F, entry: Entry): Option<nat> {
    match list.Advance(file)
    case Some(c) => if c.entry == entry then Some(c.episode + 1) else list.NextOf(entry)
    case None => list.NextOf(entry)
  }

  lemma EndOfFileBumps<F>(
    ties: Ties<F>, s: State<F>, u: User, role: Role, file: F, saved: bool, clock: Clock, entry: Entry)
    requires Inv(s) && IsState(s.room) && Ends(s, u, role, file)
    ensures EndOfFile(ties, s, u, role, file, saved, clock).room.list.NextOf(entry) == Bumped(s.room.list, file, entry)
  {
    var led := BumpsFrom(ties, s, file, saved, clock);
    BumpMoves(ties, led, clock(5), s.room.list, file, entry);
    var bumped := Bump(ties, led, clock(5), s.room.list, file);
    assert Quiet(bumped.room, Reconcile(ties, bumped, clock(6)).room);
  }

  lemma LedIsState<F>(ties: Ties<F>, watched: State<F>, next: Option<F>, clock: Clock)
    requires IsState(watched.room)
    ensures var moved := PutNowPlaying(ties, watched, clock(2), next);
            var led := PutAuthority(ties, PutIntent(ties, moved, clock(3), Paused), clock(4), FollowServer);
            IsState(led.room) && led.room.list == watched.room.list
  {
    var moved := PutNowPlaying(ties, watched, clock(2), next);
    assert IsState(moved.room);
    QuietIsState(moved.room, PutAuthority(ties, PutIntent(ties, moved, clock(3), Paused), clock(4), FollowServer).room);
  }

  lemma MarkBumps<F>(ties: Ties<F>, s: State<F>, file: F, flag: bool, clock: Clock, entry: Entry)
    requires Inv(s) && IsState(s.room) && s.room.list.Watched(file) != Some(flag)
    ensures MarkWatched(ties, s, file, flag, clock).room.list.NextOf(entry)
         == if flag then Bumped(s.room.list, file, entry) else s.room.list.NextOf(entry)
  {
    PutWatchedIsState(ties, s, clock(0), file, flag);
    PutWatchedKeeps(ties, s, clock(0), file, flag);
    BumpMoves(ties, PutWatched(ties, s, clock(0), file, flag), clock(1), s.room.list, file, entry);
  }

  /** A bump goes one past the episode, and no entry goes back by one. */
  lemma BumpedIsPast<F>(list: Progress<F>, file: F, entry: Entry, n: nat)
    ensures list.Advance(file) == Some(Claim(entry, n)) ==> Bumped(list, file, entry) == Some(n + 1)
    ensures list.NextOf(entry).Some? && list.NextOf(entry).value > n ==>
              Bumped(list, file, entry).Some? && Bumped(list, file, entry).value > n
  {
  }

  /** Only a client's write or merge, a bump, or nothing moves an entry's episode. */
  lemma OthersLeaveEpisodes<F>(ties: Ties<F>, s: State<F>, e: Event<F>, entry: Entry)
    requires Total(ties.names) && !e.Eof? && !e.Marks? && !MaySetBack(e, entry)
    ensures Next(ties, s, e).room.list.NextOf(entry) == s.room.list.NextOf(entry)
  {
  }

  lemma WatchedBumps<F>(ties: Ties<F>, s: State<F>, e: Event<F>, entry: Entry, n: nat)
    requires Total(ties.names) && Inv(s) && IsState(s.room) && (e.Eof? || e.Marks?)
    ensures Bumps(s, e, entry, n) ==> Past(Next(ties, s, e), entry, n)
    ensures Past(s, entry, n) ==> Past(Next(ties, s, e), entry, n)
  {
    BumpedIsPast(s.room.list, e.file, entry, n);
    if e.Eof? && Ends(s, e.user, e.role, e.file) {
      EndOfFileBumps(ties, s, e.user, e.role, e.file, e.saved, e.clock, entry);
    } else if e.Marks? && s.room.list.Watched(e.file) != Some(e.flag) {
      MarkBumps(ties, s, e.file, e.flag, e.clock, entry);
    }
  }

  lemma BumpedAfter<F>(ties: Ties<F>, s: State<F>, events: seq<Event<F>>, i: nat, entry: Entry, n: nat)
    requires Total(ties.names) && Inv(s) && IsState(s.room) && i < |events|
    requires Bumps(Run(ties, s, events[..i]), events[i], entry, n)
    ensures Past(Run(ties, s, events[..i + 1]), entry, n)
  {
    RunSound(ties, s, events[..i]);
    RunSnoc(ties, s, events, i);
    WatchedBumps(ties, Run(ties, s, events[..i]), events[i], entry, n);
  }

  lemma SetBackAt<F>(ties: Ties<F>, s: State<F>, events: seq<Event<F>>, k: nat, entry: Entry, n: nat)
    requires Total(ties.names) && Inv(s) && IsState(s.room) && k < |events|
    requires Past(Run(ties, s, events[..k]), entry, n) && !Past(Run(ties, s, events[..k + 1]), entry, n)
    ensures MaySetBack(events[k], entry)
  {
    var before := Run(ties, s, events[..k]);
    RunSound(ties, s, events[..k]);
    RunSnoc(ties, s, events, k);
    if events[k].Eof? || events[k].Marks? {
      WatchedBumps(ties, before, events[k], entry, n);
    } else if !MaySetBack(events[k], entry) {
      OthersLeaveEpisodes(ties, before, events[k], entry);
    }
  }

  function IsPast<F(==)>(entry: Entry, n: nat): State<F> -> bool {
    (s: State<F>) => Past(s, entry, n)
  }

  lemma NotPastBefore<F>(s: State<F>, e: Event<F>, entry: Entry, n: nat, m: nat)
    requires m <= n && Bumps(s, e, entry, m)
    ensures !IsPast(entry, n)(s)
  {
  }

  /** In every run, an entry is bumped from one episode, or an earlier one, a second
      time only after a client set its next episode back: further reports, repeated
      reports and manual marks of the same file bump nothing. */
  lemma EpisodeBumpsOnce<F>(
    ties: Ties<F>, s: State<F>, events: seq<Event<F>>, i: nat, j: nat, entry: Entry, n: nat, m: nat)
    requires Total(ties.names) && Inv(s) && IsState(s.room) && i < j < |events| && m <= n
    requires Bumps(Run(ties, s, events[..i]), events[i], entry, n)
    requires Bumps(Run(ties, s, events[..j]), events[j], entry, m)
    ensures exists k :: && i < k < j && MaySetBack(events[k], entry)
                        && Past(Run(ties, s, events[..k]), entry, n) && !Past(Run(ties, s, events[..k + 1]), entry, n)
  {
    BumpedAfter(ties, s, events, i, entry, n);
    NotPastBefore(Run(ties, s, events[..j]), events[j], entry, n, m);
    var k := Crossing(ties, s, events, i + 1, j, IsPast(entry, n));
    SetBackAt(ties, s, events, k, entry, n);
  }

  // ---- Compaction while the video plays.

  /** Absent, without a window, committed, not marked away, and excused only by an
      acknowledgement. */
  predicate OnlyAcknowledged<F(==)>(view: View<F>, u: User, peer: Info) {
    && peer.role == Interactive && peer.presence != Present && peer.grace.None?
    && EffectiveWatch(view, u) == Watching && ManualOf(view, u) != Some(Away) && Acknowledged(view, u)
  }

  /** A playing room still plays after compaction exactly if nobody in it, known
      offline users included, is excused only by an acknowledgement. */
  lemma CompactionPlaysOnIff<F>(ties: Ties<F>, s: State<F>, clock: Clock, known: seq<KnownUser>, now: nat)
    requires Inv(s) && Active(s.room.Look(), WithKnown(s.Infos(), known, now))
    ensures var s', peers := Compact(ties, s, clock), WithKnown(s.Infos(), known, now);
            Active(s'.room.Look(), WithKnown(s'.Infos(), known, now)) <==>
            forall u :: u in peers ==> !OnlyAcknowledged(s.room.Look(), u, peers[u])
  {
    CompactKeeps(ties, s, clock);
    var s', peers := Compact(ties, s, clock), WithKnown(s.Infos(), known, now);
    assert s'.Infos() == s.Infos();
    ForgettingPlaysOnIff(s.room.Look(), peers);
  }

  lemma ForgettingPlaysOnIff<F>(view: View<F>, peers: Infos)
    requires Active(view, peers)
    ensures Active(view.(all := view.all.(acknowledged := {})), peers) <==>
            forall u :: u in peers ==> !OnlyAcknowledged(view, u, peers[u])
  {
    var view' := view.(all := view.all.(acknowledged := {}));
    ActiveIff(view, peers);
    ActiveIff(view', peers);
    forall u | u in peers ensures Block(view', u, peers[u]).None? <==> !OnlyAcknowledged(view, u, peers[u]) {
    }
  }

  /** A state that fails: one committed viewer has left and was acknowledged. */
  lemma CompactionStopsTheVideo<F>(ties: Ties<F>, file: F, u: User, clock: Clock)
    ensures var all := Commitments((_, _) => Watching, map[], map[], {(file, u)});
            var room := Room(Some(Lww(0, Some(file))), Some(Lww(0, Playing)), None, all, map[], [file],
                             Progress(_ => None, map[], map[]), 0);
            var s := State(map[u := Peer(0, Interactive, Departed, Some(0), None)], None, room, 0);
            && Inv(s) && IsState(s.room) && Active(s.room.Look(), s.Infos())
            && !Active(Compact(ties, s, clock).room.Look(), Compact(ties, s, clock).Infos())
  {
    var all := Commitments((_, _) => Watching, map[], map[], {(file, u)});
    var room := Room(Some(Lww(0, Some(file))), Some(Lww(0, Playing)), None, all, map[], [file],
                     Progress(_ => None, map[], map[]), 0);
    var s := State(map[u := Peer(0, Interactive, Departed, Some(0), None)], None, room, 0);
    ActiveIff(room.Look(), s.Infos());
    CompactKeeps(ties, s, clock);
    assert Compact(ties, s, clock).Infos() == s.Infos();
    assert u in s.Infos() && OnlyAcknowledged(room.Look(), u, s.Infos()[u]);
    ForgettingPlaysOnIff(room.Look(), s.Infos());
  }

  // ---- Opening a window in two critical sections.

  /** The judgement and the opening are two steps, and another handler can run in
      between.  A pause that does leaves a window open over a paused room: what
      holds of whole handlers fails here, exactly because the room no longer
      plays the judged file when the window opens. */
  lemma PauseBetweenLeavesWindow<F>(ties: Ties<F>, s: State<F>, before: Infos, u: User, conn: nat,
                                    clock: Clock, known: seq<KnownUser>, now: nat, ts: nat)
    requires Total(ties.names) && Inv(s) && CanOpen(s, u, conn) && s.peers[u].role == Interactive
    requires Judge(s.room, before, known, now).Some? && ts > s.lastIssued
    ensures var file := Judge(s.room, before, known, now).value;
            var s' := ClientOp(ties, s, SetIntent(Lww(ts, Paused)), false, false, clock, known);
            && Inv(s') && CanOpen(s', u, conn)
            && var late := OpenWindow(s', u, file, now);
               Floor(late) && Windows(late) && !PlaysOn(late)
  {
    var file := Judge(s.room, before, known, now).value;
    var w := SetIntent(Lww(ts, Paused));
    var written := Observe(s, ts).(room := Written(ties, s.room, w));
    SettleKeeps(ties, written, false, false, clock, known);
    ReconcileStops(ties, written, clock(2));
    ReconcilePeers(ties, written, clock(2));
    OpenKeeps(ClientOp(ties, s, w, false, false, clock, known), u, file, now);
  }

  lemma ReconcilePeers<F>(ties: Ties<F>, s: State<F>, now: nat)
    ensures var s' := Reconcile(ties, s, now);
            && s'.peers.Keys == s.peers.Keys
            && forall u :: u in s.peers ==> s'.peers[u].(grace := s.peers[u].grace) == s.peers[u]
  {
  }
}

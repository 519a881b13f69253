/** Who holds the video back.  Peer lists are keyed by username, which is unique
    in them; `F` is the type of files. */
module Gating {
  import opened Sorted
  import opened Wrappers

  datatype User = User(name: string)
  datatype Role = Interactive | Seeder
  datatype Presence = Present | Lost | Departed
  datatype Watch = Watching | NotWatching | Maybe
  datatype Manual = ManuallyPaused | Away
  datatype Availability = Ready | Missing | Downloading | DownloadingPlayable
  datatype Intent = Playing | Paused

  /** What gating sees of a peer. */
  datatype Info = Info(role: Role, presence: Presence, grace: Option<nat>)
  type Infos = map<User, Info>

  /** What gating reads of the state besides the two registers.  `watch` is a
      user's commitment to the series of a file. */
  datatype Commitments<!F(==)> = Commitments(
    watch: (User, F) -> Watch,
    manual: map<User, Manual>,
    availability: map<(User, F), Availability>,
    acknowledged: set<(F, User)>)

  datatype View<!F(==)> = View(intent: Intent, nowPlaying: Option<F>, all: Commitments<F>)

  datatype Reason = PausedByHand | FileMissing | StillDownloading | CommittedAbsent

  function EffectiveWatch<F>(view: View<F>, user: User): Watch {
    if view.nowPlaying.Some? then view.all.watch(user, view.nowPlaying.value) else Maybe
  }

  function FileBlock<F(==)>(view: View<F>, user: User): Option<Reason> {
    if view.nowPlaying.None? || (user, view.nowPlaying.value) !in view.all.availability then None
    else
      match view.all.availability[(user, view.nowPlaying.value)]
      case Missing => Some(FileMissing)
      case Downloading => Some(StillDownloading)
      case _ => None
  }

  function ManualOf<F(==)>(view: View<F>, user: User): Option<Manual> {
    if user in view.all.manual then Some(view.all.manual[user]) else None
  }

  predicate Acknowledged<F(==)>(view: View<F>, user: User) {
    view.nowPlaying.Some? && (view.nowPlaying.value, user) in view.all.acknowledged
  }

  function Block<F(==)>(view: View<F>, user: User, peer: Info): Option<Reason> {
    if peer.role != Interactive || ManualOf(view, user) == Some(Away) ||
        (peer.presence != Present && peer.grace.Some?) then None
    else
      match EffectiveWatch(view, user)
      case NotWatching => None
      case Maybe =>
        if peer.presence != Present then None
        else if ManualOf(view, user) == Some(ManuallyPaused) then Some(PausedByHand) else FileBlock(view, user)
      case Watching =>
        if peer.presence != Present then if Acknowledged(view, user) then None else Some(CommittedAbsent)
        else if ManualOf(view, user) == Some(ManuallyPaused) then Some(PausedByHand) else FileBlock(view, user)
  }

  function Blockers<F(==)>(view: View<F>, peers: Infos): map<User, Reason> {
    map u | u in peers && Block(view, u, peers[u]).Some? :: Block(view, u, peers[u]).value
  }

  predicate Active<F(==)>(view: View<F>, peers: Infos) {
    view.intent == Playing && view.nowPlaying.Some? && Blockers(view, peers) == map[]
  }

  lemma ActiveIff<F>(view: View<F>, peers: Infos)
    ensures Active(view, peers) <==> && view.intent == Playing && view.nowPlaying.Some?
                                     && (forall u :: u in peers ==> Block(view, u, peers[u]).None?)
  {
    if exists u :: u in peers && Block(view, u, peers[u]).Some? {
      var u :| u in peers && Block(view, u, peers[u]).Some?;
      assert u in Blockers(view, peers);
    }
  }

  // ---- Users who are known but not connected.

  datatype KnownUser = KnownUser(user: User, lastSeen: nat)

  const HORIZON_MILLIS := 7 * 24 * 60 * 60 * 1000

  /** Seen within the last week; a time in the future counts as now. */
  predicate Recent(k: KnownUser, now: nat) {
    now <= k.lastSeen || now - k.lastSeen <= HORIZON_MILLIS
  }

  function Synthesized(): Info {
    Info(Interactive, Departed, None)
  }

  /** Recently seen users without an entry count as departed. */
  function WithKnown(peers: Infos, known: seq<KnownUser>, now: nat): Infos {
    peers + map k | k in known && Recent(k, now) && k.user !in peers :: k.user := Synthesized()
  }

  method MergeKnownOffline(peers: Infos, known: seq<KnownUser>, now: nat) returns (merged: Infos)
    ensures merged == WithKnown(peers, known, now)
    ensures forall u :: u in merged <==>
                          u in peers || exists k :: k in known && k.user == u && now <= k.lastSeen + 604_800_000
    ensures forall u :: u in merged ==> merged[u] == if u in peers then peers[u] else Info(Interactive, Departed, None)
  {
    merged := peers;
    for i := 0 to |known|
      invariant forall u :: u in merged <==>
          u in peers || exists j :: 0 <= j < i && known[j].user == u && Recent(known[j], now)
      invariant forall u :: u in merged ==> merged[u] == if u in peers then peers[u] else Synthesized()
    {
      if Recent(known[i], now) && known[i].user !in merged {
        merged := merged[known[i].user := Synthesized()];
      }
    }
    forall u ensures u in merged <==> u in WithKnown(peers, known, now)
      ensures u in merged <==> u in peers || exists k :: k in known && k.user == u && now <= k.lastSeen + 604_800_000
    {
      if u in merged && u !in peers {
        var j :| 0 <= j < |known| && known[j].user == u && Recent(known[j], now);
        assert known[j] in known;
      }
    }
  }

  /** A synthesized user never hides a real entry, and blocks only by commitment. */
  lemma KnownBlock<F>(view: View<F>, peers: Infos, known: seq<KnownUser>, now: nat, u: User)
    requires u in WithKnown(peers, known, now)
    ensures u in peers ==> WithKnown(peers, known, now)[u] == peers[u]
    ensures u !in peers ==>
              (Block(view, u, WithKnown(peers, known, now)[u]).Some? <==>
                 EffectiveWatch(view, u) == Watching && !Acknowledged(view, u) && ManualOf(view, u) != Some(Away))
  {
  }

  // ---- Outages.

  const GRACE_MILLIS := 3 * 60 * 1000

  /** The known users that are not present, as the server lists them. */
  ghost predicate Offline(known: seq<KnownUser>, all: seq<KnownUser>, peers: Infos) {
    forall k :: k in known <==> k in all && !(k.user in peers && peers[k.user].presence == Present)
  }

  /** A drop with a window keeps the video playing at the same instant: nobody
      starts to block, also when the dropped user now counts as known offline. */
  lemma WindowKeepsPlaying<F>(view: View<F>, peers: Infos, u: User, until: nat, now: nat,
                              all: seq<KnownUser>, known: seq<KnownUser>, known': seq<KnownUser>)
    requires u in peers && peers[u].role == Interactive
    requires Offline(known, all, peers)
    requires Offline(known', all, peers[u := Info(Interactive, Lost, Some(until))])
    requires Active(view, WithKnown(peers, known, now))
    ensures Active(view, WithKnown(peers[u := Info(Interactive, Lost, Some(until))], known', now))
  {
    var peers' := peers[u := Info(Interactive, Lost, Some(until))];
    var before, after := WithKnown(peers, known, now), WithKnown(peers', known', now);
    ActiveIff(view, before);
    ActiveIff(view, after);
    forall x | x in after ensures Block(view, x, after[x]).None? {
      if x !in peers' {
        var k :| k in known' && Recent(k, now) && k.user == x;
        assert k in known;
      }
      assert x != u ==> x in before && after[x] == before[x];
    }
  }

  /** Without a window, a committed user who is away and not excused blocks. */
  lemma AbsentCommittedBlocks<F>(view: View<F>, peers: Infos, u: User)
    requires u in peers && peers[u].role == Interactive && peers[u].presence != Present && peers[u].grace.None?
    requires EffectiveWatch(view, u) == Watching
    ensures !Acknowledged(view, u) && ManualOf(view, u) != Some(Away) <==>
              u in Blockers(view, peers) && Blockers(view, peers)[u] == CommittedAbsent
    ensures !Acknowledged(view, u) && ManualOf(view, u) != Some(Away) ==> !Active(view, peers)
  {
  }

  /** The file is reported missing or not far enough along; an unreported one is
      neither. */
  predicate LacksFile<F(==)>(view: View<F>, user: User) {
    && view.nowPlaying.Some? && (user, view.nowPlaying.value) in view.all.availability
    && var reported := view.all.availability[(user, view.nowPlaying.value)];
       reported == Missing || reported == Downloading
  }

  /** A present viewer blocks exactly if they take part in the series at all, are not
      marked away, and paused by hand or lack the file; the pause is the reason given
      first. */
  lemma PresentBlocksIff<F>(view: View<F>, peers: Infos, u: User)
    requires u in peers && peers[u].presence == Present
    ensures u in Blockers(view, peers) <==>
              && peers[u].role == Interactive && EffectiveWatch(view, u) != NotWatching
              && (if u in view.all.manual then view.all.manual[u] == ManuallyPaused else LacksFile(view, u))
    ensures u in Blockers(view, peers) ==>
              && (Blockers(view, peers)[u] == PausedByHand <==> u in view.all.manual)
              && (Blockers(view, peers)[u] == FileMissing ==>
                    view.all.availability[(u, view.nowPlaying.value)] == Missing)
              && (Blockers(view, peers)[u] == StillDownloading ==>
                    view.all.availability[(u, view.nowPlaying.value)] == Downloading)
              && Blockers(view, peers)[u] != CommittedAbsent && !Active(view, peers)
  {
    var manual := ManualOf(view, u);
    assert manual.None? || manual.value == ManuallyPaused || manual.value == Away;
  }

  /** Nobody marked away blocks, and with nothing to play only a present viewer's own
      pause does. */
  lemma AwayAndIdle<F>(view: View<F>, peers: Infos, u: User)
    requires u in peers
    ensures u in view.all.manual && view.all.manual[u] == Away ==> u !in Blockers(view, peers)
    ensures view.nowPlaying.None? ==>
              (u in Blockers(view, peers) <==>
                 && peers[u].role == Interactive && peers[u].presence == Present
                 && u in view.all.manual && view.all.manual[u] == ManuallyPaused)
  {
  }

  /** A peer that only seeds never blocks. */
  lemma SeederNeverBlocks<F>(view: View<F>, peers: Infos, u: User)
    requires u in peers && peers[u].role == Seeder
    ensures u !in Blockers(view, peers)
  {
  }

  /** Someone uncommitted, or excused, or only seeding, never holds the room back
      by being away. */
  lemma OthersNeverBlockAway<F>(view: View<F>, peers: Infos, u: User)
    requires u in peers && peers[u].presence != Present
    ensures u in Blockers(view, peers) <==>
              peers[u].role == Interactive && peers[u].grace.None? && EffectiveWatch(view, u) == Watching &&
              !Acknowledged(view, u) && ManualOf(view, u) != Some(Away)
  {
  }

  // ---- Whom to follow after an outage.

  /** Close enough to the front that an outage can explain the gap. */
  predicate Near(loaded: map<User, nat>, u: User) {
    u in loaded && forall v :: v in loaded ==> loaded[u] + GRACE_MILLIS >= loaded[v]
  }

  predicate BehindLess(names: Order<User>, loaded: map<User, nat>, a: User, b: User) {
    var ma, mb := if a in loaded then loaded[a] else 0, if b in loaded then loaded[b] else 0;
    ma < mb || (ma == mb && names(a, b))
  }

  /** The furthest-behind of those, the first by name on ties. */
  function RejoinLaggard(names: Order<User>, loaded: map<User, nat>): (r: Option<User>)
    requires Total(names)
    ensures r.None? <==> loaded == map[]
    ensures r.Some? ==>
              && Near(loaded, r.value)
              && forall v :: Near(loaded, v) && v != r.value ==>
                               loaded[r.value] < loaded[v] || (loaded[r.value] == loaded[v] && names(r.value, v))
  {
    if loaded == map[] then None
    else
      FrontIsNear(loaded);
      var order: Order<User> := (a, b) => BehindLess(names, loaded, a, b);
      assert Total(order);
      var near := set u | u in loaded && Near(loaded, u);
      assert near != {} by {
        var u :| u in loaded && Near(loaded, u);
        assert u in near;
      }
      var x := Least(order, near);
      assert forall v :: Near(loaded, v) ==> v in near && (v == x || BehindLess(names, loaded, x, v)) by {
        forall v | v in near && v != x ensures BehindLess(names, loaded, x, v) {
          assert order(x, v);
        }
      }
      Some(x)
  }

  lemma FrontIsNear(loaded: map<User, nat>)
    requires loaded != map[]
    ensures exists u :: u in loaded && Near(loaded, u)
  {
    assert exists u :: u in loaded;
    var u :| u in loaded;
    var front := Furthest(loaded, loaded.Keys, u);
    assert Near(loaded, front);
  }

  lemma {:induction false} Furthest(loaded: map<User, nat>, among: set<User>, start: User) returns (front: User)
    requires start in loaded && among <= loaded.Keys
    ensures front in loaded && loaded[start] <= loaded[front] && forall v :: v in among ==> loaded[v] <= loaded[front]
    decreases |among|
  {
    front := start;
    if among != {} {
      var v :| v in among;
      front := Furthest(loaded, among - {v}, if loaded[v] <= loaded[start] then start else v);
    }
  }
}

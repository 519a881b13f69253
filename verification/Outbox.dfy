/** A connection's outbound queue: any number of pushers and one writer share
    two atomics, a channel and a one-shot overflow action.  Every atomic access
    is its own step, so a run is an arbitrary interleaving of the steps. */
module Outbox {
  import opened Wrappers

  type Frame = seq<nat>

  /** Where one `push` call stands between two of its atomic accesses. */
  datatype Phase =
    | Idle
    | Checked(frame: Frame)        // found the outbox open
    | Admitted(frame: Frame)       // counted, within the limit: to be sent
    | Refused(frame: Frame)        // counted, past the limit: to be uncounted
    | Overflowing                  // uncounted: to swap the closed flag
    | Closing                      // swapped it first: to take the action
    | Undelivered(frame: Frame)    // the channel is gone: to be uncounted

  datatype Writer =
    | Waiting
    | Received(frame: Frame)            // taken from the channel, flag not read yet
    | Writing(frame: Frame)
    | Wrote(frame: Frame, ok: bool)     // still counted
    | Failing                           // the destination failed: to set the flag
    | Exiting                           // out of its loop, channel not dropped yet
    | Gone

  /** What a refused push found: the admitted bytes, its own length, and whether
      the writer was still in its loop. */
  datatype Refusal = Refusal(admitted: nat, len: nat, draining: bool)

  datatype State = State(
    limit: nat,
    queued: int,
    closed: bool,
    action: bool,            // the overflow action is still there to take
    chan: seq<Frame>,
    writer: Writer,
    pushers: seq<Phase>,
    // History.
    enqueued: seq<Frame>,    // every frame the channel took, in order
    written: seq<Frame>,     // every frame the destination took, in order
    runs: nat,               // times the overflow action ran
    abandoned: nat,          // bytes still counted when their frame was dropped
    firstRefusal: Option<Refusal>)

  function Init(limit: nat, pushers: nat): State {
    State(limit, 0, false, true, [], Waiting, seq(pushers, i => Idle), [], [], 0, 0, None)
  }

  datatype Event =
    | Push(pusher: nat, frame: Frame)   // a call begins with its read of the flag
    | Resume(pusher: nat)               // the call's next atomic access
    | Drain(ok: bool)                   // the writer's next; `ok` is used by a write

  // ---- Steps.

  function Bytes(frames: seq<Frame>): nat {
    if frames == [] then 0 else |frames[0]| + Bytes(frames[1..])
  }

  function Total(phases: seq<Phase>, measure: Phase -> nat): nat {
    if phases == [] then 0 else measure(phases[0]) + Total(phases[1..], measure)
  }

  function AdmittedBytes(p: Phase): nat {
    if p.Admitted? then |p.frame| else 0
  }

  function CountedBytes(p: Phase): nat {
    if p.Admitted? || p.Refused? || p.Undelivered? then |p.frame| else 0
  }

  /** Bytes of the frame the writer holds. */
  function InHand(w: Writer): nat {
    if w.Received? || w.Writing? || w.Wrote? then |w.frame| else 0
  }

  predicate InLoop(w: Writer) {
    w.Waiting? || w.Received? || w.Writing? || w.Wrote?
  }

  /** Bytes the outbox has taken on and the destination has not. */
  function Admitted(s: State): nat {
    Bytes(s.chan) + InHand(s.writer) + Total(s.pushers, AdmittedBytes)
  }

  /** What a refusal now would record, unless one is recorded already. */
  function Noted(s: State, len: nat): Option<Refusal> {
    if s.firstRefusal.Some? then s.firstRefusal
    else Some(Refusal(Admitted(s), len, InLoop(s.writer)))
  }

  /** `fetch_add`, and the decision made from what it returned. */
  function CountStep(s: State, i: nat, frame: Frame): State
    requires i < |s.pushers|
  {
    if s.queued > 0 && s.queued + |frame| > s.limit then
      s.(queued := s.queued + |frame|, pushers := s.pushers[i := Refused(frame)], firstRefusal := Noted(s, |frame|))
    else
      s.(queued := s.queued + |frame|, pushers := s.pushers[i := Phase.Admitted(frame)])
  }

  function SendStep(s: State, i: nat, frame: Frame): State
    requires i < |s.pushers|
  {
    if s.writer.Gone? then s.(pushers := s.pushers[i := Undelivered(frame)])
    else s.(chan := s.chan + [frame], enqueued := s.enqueued + [frame], pushers := s.pushers[i := Idle])
  }

  /** `fetch_sub` by a pusher. */
  function UncountStep(s: State, i: nat, frame: Frame, next: Phase): State
    requires i < |s.pushers|
  {
    s.(queued := s.queued - |frame|, pushers := s.pushers[i := next])
  }

  function SwapStep(s: State, i: nat): State
    requires i < |s.pushers|
  {
    s.(closed := true, pushers := s.pushers[i := if s.closed then Idle else Closing])
  }

  function TakeStep(s: State, i: nat): State
    requires i < |s.pushers|
  {
    s.(action := false, runs := s.runs + (if s.action then 1 else 0), pushers := s.pushers[i := Idle])
  }

  function PusherStep(s: State, i: nat): Option<State>
    requires i < |s.pushers|
  {
    match s.pushers[i]
    case Idle => None
    case Checked(frame) => Some(CountStep(s, i, frame))
    case Admitted(frame) => Some(SendStep(s, i, frame))
    case Refused(frame) => Some(UncountStep(s, i, frame, Overflowing))
    case Overflowing => Some(SwapStep(s, i))
    case Closing => Some(TakeStep(s, i))
    case Undelivered(frame) => Some(UncountStep(s, i, frame, Idle))
  }

  function WriterStep(s: State, ok: bool): Option<State> {
    match s.writer
    case Waiting =>
      if s.chan != [] then Some(s.(chan := s.chan[1..], writer := Received(s.chan[0])))
      else if forall p :: p in s.pushers ==> p == Idle then Some(s.(writer := Exiting)) // every handle dropped
      else None
    case Received(frame) =>
      if s.closed then Some(s.(writer := Exiting, abandoned := s.abandoned + |frame|))
      else Some(s.(writer := Writing(frame)))
    case Writing(frame) =>
      Some(s.(writer := Wrote(frame, ok), written := if ok then s.written + [frame] else s.written))
    case Wrote(frame, wasOk) =>
      Some(s.(queued := s.queued - |frame|, writer := if wasOk then Waiting else Failing))
    case Failing => Some(s.(closed := true, writer := Exiting))
    case Exiting => Some(s.(writer := Gone, chan := [], abandoned := s.abandoned + Bytes(s.chan)))
    case Gone => None
  }

  /** The state after an event, or nothing if the event cannot happen. */
  function Next(s: State, e: Event): Option<State> {
    match e
    case Push(i, frame) =>
      if i >= |s.pushers| || s.pushers[i] != Idle then None
      else if s.closed then Some(s)
      else Some(s.(pushers := s.pushers[i := Checked(frame)]))
    case Resume(i) => if i >= |s.pushers| then None else PusherStep(s, i)
    case Drain(ok) => WriterStep(s, ok)
  }

  function Run(s: State, events: seq<Event>): Option<State>
    decreases |events|
  {
    if events == [] then Some(s)
    else
      match Next(s, events[0])
      case None => None
      case Some(s') => Run(s', events[1..])
  }

  // ---- The invariant.

  /** Every counted byte has an owner. */
  ghost predicate Accounted(s: State) {
    && s.queued == Bytes(s.chan) + InHand(s.writer) + Total(s.pushers, CountedBytes) + s.abandoned
    && (InLoop(s.writer) || s.writer.Failing? ==> s.abandoned == 0)
    && (s.writer.Gone? ==> s.chan == [])
    && (!s.writer.Gone? ==> forall p :: p in s.pushers ==> !p.Undelivered?)
  }

  /** The frames not yet written, in order, while the writer is in its loop. */
  function Ahead(s: State): seq<Frame> {
    (if s.writer.Received? || s.writer.Writing? then [s.writer.frame] else []) + s.chan
  }

  ghost predicate InOrder(s: State) {
    && s.written <= s.enqueued
    && (s.writer.Wrote? && s.writer.ok ==> s.enqueued == s.written + s.chan)
    && (s.writer.Waiting? || s.writer.Received? || s.writer.Writing? ==> s.enqueued == s.written + Ahead(s))
  }

  function ClosingCount(p: Phase): nat {
    if p.Closing? then 1 else 0
  }

  ghost predicate ActsOnce(s: State) {
    && s.runs + Total(s.pushers, ClosingCount) <= 1
    && (!s.closed ==> s.runs + Total(s.pushers, ClosingCount) == 0)
  }

  /** A refused call that has not swapped the flag yet. */
  function PendingCount(p: Phase): nat {
    if p.Refused? || p.Overflowing? then 1 else 0
  }

  /** While the writer is in its loop only an overflow can have closed the outbox,
      and its action has run or is about to; a refusal leads to that. */
  ghost predicate ActsSurely(s: State) {
    && (s.action <==> s.runs == 0)
    && (s.closed && (InLoop(s.writer) || s.writer.Failing?) ==> s.runs + Total(s.pushers, ClosingCount) == 1)
    && (s.firstRefusal.Some? && !s.closed ==> Total(s.pushers, PendingCount) > 0)
  }

  predicate LengthFits(n: nat, admitted: nat) {
    n == 0 || n == admitted
  }

  /** Past the limit, one frame is all there is. */
  ghost predicate Bounded(s: State) {
    Admitted(s) > s.limit ==>
      && (forall f :: f in s.chan ==> LengthFits(|f|, Admitted(s)))
      && LengthFits(InHand(s.writer), Admitted(s))
      && (forall p :: p in s.pushers && p.Admitted? ==> LengthFits(|p.frame|, Admitted(s)))
  }

  predicate Refusing(p: Phase) {
    p.Refused? || p.Overflowing? || p.Closing?
  }

  /** The first refusal met a real backlog, and nothing was refused before it. */
  ghost predicate Earned(s: State) {
    && (s.firstRefusal.None? ==> s.runs == 0 && forall p :: p in s.pushers ==> !Refusing(p))
    && (s.firstRefusal.Some? && s.firstRefusal.value.draining ==>
          s.firstRefusal.value.admitted > 0 && s.firstRefusal.value.admitted + s.firstRefusal.value.len > s.limit)
  }

  ghost predicate Inv(s: State) {
    Accounted(s) && InOrder(s) && ActsOnce(s) && ActsSurely(s) && Bounded(s) && Earned(s)
  }

  // ---- Sums.

  lemma {:induction false} TotalUpdate(phases: seq<Phase>, i: nat, p: Phase, measure: Phase -> nat)
    requires i < |phases|
    ensures Total(phases[i := p], measure) + measure(phases[i]) == Total(phases, measure) + measure(p)
  {
    if i == 0 {
      assert phases[i := p][1..] == phases[1..];
    } else {
      assert phases[i := p][1..] == phases[1..][i - 1 := p];
      TotalUpdate(phases[1..], i - 1, p, measure);
    }
  }

  lemma {:induction false} TotalIdle(phases: seq<Phase>, measure: Phase -> nat)
    requires measure(Idle) == 0 && forall p :: p in phases ==> p == Idle
    ensures Total(phases, measure) == 0
  {
    if phases != [] {
      assert phases[0] in phases && forall p :: p in phases[1..] ==> p in phases;
      TotalIdle(phases[1..], measure);
    }
  }

  lemma {:induction false} TotalBounds(phases: seq<Phase>, i: nat, measure: Phase -> nat)
    requires i < |phases|
    ensures measure(phases[i]) <= Total(phases, measure)
  {
    if i > 0 {
      TotalBounds(phases[1..], i - 1, measure);
    }
  }

  lemma {:induction false} AdmittedIsCounted(phases: seq<Phase>)
    ensures Total(phases, AdmittedBytes) <= Total(phases, CountedBytes)
    ensures (forall p :: p in phases ==> !Refusing(p) && !p.Undelivered?) ==>
              Total(phases, AdmittedBytes) == Total(phases, CountedBytes)
  {
    if phases != [] {
      assert phases[0] in phases;
      AdmittedIsCounted(phases[1..]);
    }
  }

  lemma {:induction false} BytesAppend(frames: seq<Frame>, f: Frame)
    ensures Bytes(frames + [f]) == Bytes(frames) + |f|
  {
    if frames != [] {
      assert (frames + [f])[1..] == frames[1..] + [f];
      BytesAppend(frames[1..], f);
    }
  }

  lemma {:induction false} BytesZero(frames: seq<Frame>)
    requires Bytes(frames) == 0
    ensures forall f :: f in frames ==> |f| == 0
  {
    if frames != [] {
      BytesZero(frames[1..]);
      assert frames == [frames[0]] + frames[1..];
    }
  }

  lemma {:induction false} AdmittedZero(phases: seq<Phase>)
    requires Total(phases, AdmittedBytes) == 0
    ensures forall p :: p in phases && p.Admitted? ==> |p.frame| == 0
  {
    if phases != [] {
      AdmittedZero(phases[1..]);
      assert phases == [phases[0]] + phases[1..];
    }
  }

  /** The sums after one pusher moves. */
  lemma PusherMoves(s: State, i: nat, p: Phase)
    requires i < |s.pushers|
    ensures var ps := s.pushers[i := p];
            && Total(ps, AdmittedBytes) + AdmittedBytes(s.pushers[i]) ==
               Total(s.pushers, AdmittedBytes) + AdmittedBytes(p)
            && Total(ps, CountedBytes) + CountedBytes(s.pushers[i]) == Total(s.pushers, CountedBytes) + CountedBytes(p)
            && Total(ps, ClosingCount) + ClosingCount(s.pushers[i]) == Total(s.pushers, ClosingCount) + ClosingCount(p)
            && Total(ps, PendingCount) + PendingCount(s.pushers[i]) == Total(s.pushers, PendingCount) + PendingCount(p)
    ensures forall q :: q in s.pushers[i := p] ==> q == p || q in s.pushers
    ensures s.pushers[i] in s.pushers
  {
    TotalUpdate(s.pushers, i, p, AdmittedBytes);
    TotalUpdate(s.pushers, i, p, CountedBytes);
    TotalUpdate(s.pushers, i, p, ClosingCount);
    TotalUpdate(s.pushers, i, p, PendingCount);
  }

  // ---- Preservation, step by step.

  lemma PushKeeps(s: State, i: nat, frame: Frame)
    requires Inv(s) && i < |s.pushers| && s.pushers[i] == Idle
    ensures Inv(s.(pushers := s.pushers[i := Checked(frame)]))
  {
    var s' := s.(pushers := s.pushers[i := Checked(frame)]);
    PusherMoves(s, i, Checked(frame));
    assert Admitted(s') == Admitted(s);
  }

  lemma CountAccounted(s: State, i: nat)
    requires Accounted(s) && ActsOnce(s) && i < |s.pushers| && s.pushers[i].Checked?
    ensures Accounted(CountStep(s, i, s.pushers[i].frame)) && ActsOnce(CountStep(s, i, s.pushers[i].frame))
    ensures ActsSurely(s) ==> ActsSurely(CountStep(s, i, s.pushers[i].frame))
  {
    PusherMoves(s, i, CountStep(s, i, s.pushers[i].frame).pushers[i]);
  }

  /** The first refusal, if the writer was draining, met admitted bytes only. */
  lemma CountEarned(s: State, i: nat)
    requires Accounted(s) && Earned(s) && i < |s.pushers| && s.pushers[i].Checked?
    ensures Earned(CountStep(s, i, s.pushers[i].frame))
  {
    PusherMoves(s, i, CountStep(s, i, s.pushers[i].frame).pushers[i]);
    if s.firstRefusal.None? && InLoop(s.writer) {
      AdmittedIsCounted(s.pushers);
      assert s.queued == Admitted(s);
    }
  }

  /** A counted frame is admitted into nothing, or within the limit. */
  lemma CountBounded(s: State, i: nat)
    requires Accounted(s) && Bounded(s) && i < |s.pushers| && s.pushers[i].Checked?
    ensures Bounded(CountStep(s, i, s.pushers[i].frame))
  {
    var frame := s.pushers[i].frame;
    var s' := CountStep(s, i, frame);
    PusherMoves(s, i, s'.pushers[i]);
    AdmittedIsCounted(s.pushers);
    if s'.pushers[i].Admitted? {
      assert Admitted(s') == Admitted(s) + |frame|;
      if s.queued == 0 {
        BytesZero(s.chan);
        AdmittedZero(s.pushers);
      }
    } else {
      assert Admitted(s') == Admitted(s);
    }
  }

  lemma SendAccounted(s: State, i: nat)
    requires Accounted(s) && ActsOnce(s) && Earned(s) && i < |s.pushers| && s.pushers[i].Admitted?
    ensures var s' := SendStep(s, i, s.pushers[i].frame); Accounted(s') && ActsOnce(s') && Earned(s')
    ensures ActsSurely(s) ==> ActsSurely(SendStep(s, i, s.pushers[i].frame))
  {
    PusherMoves(s, i, SendStep(s, i, s.pushers[i].frame).pushers[i]);
    BytesAppend(s.chan, s.pushers[i].frame);
  }

  lemma SendBounded(s: State, i: nat)
    requires Bounded(s) && i < |s.pushers| && s.pushers[i].Admitted?
    ensures Bounded(SendStep(s, i, s.pushers[i].frame))
  {
    var frame := s.pushers[i].frame;
    var s' := SendStep(s, i, frame);
    PusherMoves(s, i, s'.pushers[i]);
    BytesAppend(s.chan, frame);
    assert Admitted(s') == if s.writer.Gone? then Admitted(s) - |frame| else Admitted(s);
  }

  lemma SendInOrder(s: State, i: nat)
    requires InOrder(s) && i < |s.pushers| && s.pushers[i].Admitted?
    ensures InOrder(SendStep(s, i, s.pushers[i].frame))
  {
    var frame := s.pushers[i].frame;
    if !s.writer.Gone? {
      assert Ahead(SendStep(s, i, frame)) == Ahead(s) + [frame];
      assert s.written + (Ahead(s) + [frame]) == (s.written + Ahead(s)) + [frame];
      assert s.written + (s.chan + [frame]) == (s.written + s.chan) + [frame];
    }
  }

  lemma UncountKeeps(s: State, i: nat, next: Phase)
    requires Inv(s) && i < |s.pushers|
    requires (s.pushers[i].Refused? && next == Overflowing) || (s.pushers[i].Undelivered? && next == Idle)
    ensures Inv(UncountStep(s, i, s.pushers[i].frame, next))
  {
    PusherMoves(s, i, next);
    assert Admitted(UncountStep(s, i, s.pushers[i].frame, next)) == Admitted(s);
  }

  lemma SwapKeeps(s: State, i: nat)
    requires Inv(s) && i < |s.pushers| && s.pushers[i].Overflowing?
    ensures Inv(SwapStep(s, i))
  {
    PusherMoves(s, i, SwapStep(s, i).pushers[i]);
    assert Admitted(SwapStep(s, i)) == Admitted(s);
  }

  lemma TakeKeeps(s: State, i: nat)
    requires Inv(s) && i < |s.pushers| && s.pushers[i].Closing?
    ensures Inv(TakeStep(s, i))
  {
    PusherMoves(s, i, Idle);
    TotalBounds(s.pushers, i, ClosingCount);
    assert Admitted(TakeStep(s, i)) == Admitted(s);
  }

  lemma ResumeKeeps(s: State, i: nat)
    requires Inv(s) && i < |s.pushers| && PusherStep(s, i).Some?
    ensures Inv(PusherStep(s, i).value)
  {
    match s.pushers[i]
    case Idle =>
    case Checked(_) =>
      CountAccounted(s, i);
      CountEarned(s, i);
      CountBounded(s, i);
    case Admitted(_) =>
      SendAccounted(s, i);
      SendBounded(s, i);
      SendInOrder(s, i);
    case Refused(_) => UncountKeeps(s, i, Overflowing);
    case Overflowing => SwapKeeps(s, i);
    case Closing => TakeKeeps(s, i);
    case Undelivered(_) => UncountKeeps(s, i, Idle);
  }

  lemma DrainAccounted(s: State, ok: bool)
    requires Accounted(s) && WriterStep(s, ok).Some?
    ensures Accounted(WriterStep(s, ok).value)
  {
    assert s.chan != [] ==> s.chan == [s.chan[0]] + s.chan[1..];
  }

  lemma WriteInOrder(s: State, ok: bool)
    requires InOrder(s) && s.writer.Writing?
    ensures InOrder(WriterStep(s, ok).value)
  {
    assert Ahead(s) == [s.writer.frame] + s.chan;
    assert s.written + Ahead(s) == (s.written + [s.writer.frame]) + s.chan;
  }

  lemma DrainInOrder(s: State, ok: bool)
    requires InOrder(s) && WriterStep(s, ok).Some?
    ensures InOrder(WriterStep(s, ok).value)
  {
    if s.writer.Writing? {
      WriteInOrder(s, ok);
    } else {
      assert s.chan != [] ==> s.chan == [s.chan[0]] + s.chan[1..];
      assert s.writer.Waiting? ==> Ahead(s) == s.chan;
      assert s.writer.Waiting? && s.chan != [] ==> Ahead(WriterStep(s, ok).value) == s.chan;
      assert s.writer.Wrote? ==> Ahead(WriterStep(s, ok).value) == s.chan;
    }
  }

  lemma DrainBounded(s: State, ok: bool)
    requires Bounded(s) && WriterStep(s, ok).Some?
    ensures Bounded(WriterStep(s, ok).value)
  {
    var s' := WriterStep(s, ok).value;
    if s.writer.Waiting? && s.chan != [] {
      assert s.chan == [s.chan[0]] + s.chan[1..];
      assert Admitted(s') == Admitted(s);
    } else if s.writer.Exiting? {
      DropBounded(s, ok);
    } else {
      assert Admitted(s') + InHand(s.writer) == Admitted(s) + InHand(s'.writer);
    }
  }

  /** Dropping the channel: if what is left is past the limit, nothing was dropped. */
  lemma DropBounded(s: State, ok: bool)
    requires Bounded(s) && s.writer.Exiting?
    ensures Bounded(WriterStep(s, ok).value)
  {
    var s' := WriterStep(s, ok).value;
    assert Admitted(s') == Total(s.pushers, AdmittedBytes);
    if Admitted(s') > s.limit {
      AdmittedMember(s.pushers);
      assert Admitted(s') == Admitted(s);
    }
  }

  /** A positive sum has a positive member. */
  lemma {:induction false} AdmittedMember(phases: seq<Phase>)
    requires Total(phases, AdmittedBytes) > 0
    ensures exists p :: p in phases && p.Admitted? && 0 < |p.frame| <= Total(phases, AdmittedBytes)
  {
    if AdmittedBytes(phases[0]) > 0 {
      assert phases[0] in phases;
    } else {
      AdmittedMember(phases[1..]);
      var p :| p in phases[1..] && p.Admitted? && 0 < |p.frame| <= Total(phases[1..], AdmittedBytes);
      assert p in phases;
    }
  }

  lemma DrainKeeps(s: State, ok: bool)
    requires Inv(s) && WriterStep(s, ok).Some?
    ensures Inv(WriterStep(s, ok).value)
  {
    DrainAccounted(s, ok);
    DrainInOrder(s, ok);
    DrainBounded(s, ok);
    WriterLeavesPushers(s, ok);
  }

  lemma WriterLeavesPushers(s: State, ok: bool)
    requires WriterStep(s, ok).Some?
    ensures var s' := WriterStep(s, ok).value;
            && s'.pushers == s.pushers && s'.runs == s.runs && s'.limit == s.limit
            && s'.firstRefusal == s.firstRefusal && (s.closed ==> s'.closed)
  {
  }

  lemma StepKeeps(s: State, e: Event)
    requires Inv(s) && Next(s, e).Some?
    ensures Inv(Next(s, e).value)
  {
    match e
    case Push(i, frame) => PushKeeps(s, i, frame);
    case Resume(i) => ResumeKeeps(s, i);
    case Drain(ok) => DrainKeeps(s, ok);
  }

  lemma {:induction false} RunKeeps(s: State, events: seq<Event>)
    requires Inv(s) && Run(s, events).Some?
    ensures Inv(Run(s, events).value)
    decreases |events|
  {
    if events != [] {
      StepKeeps(s, events[0]);
      RunKeeps(Next(s, events[0]).value, events[1..]);
    }
  }

  // ---- What holds in every reachable state.

  /** The state any run leads to from a fresh outbox. */
  ghost predicate Reachable(s: State) {
    exists limit, pushers, events :: Run(Init(limit, pushers), events) == Some(s)
  }

  lemma ReachableInv(s: State)
    requires Reachable(s)
    ensures Inv(s)
  {
    var limit, pushers, events :| Run(Init(limit, pushers), events) == Some(s);
    var s0 := Init(limit, pushers);
    TotalIdle(s0.pushers, AdmittedBytes);
    TotalIdle(s0.pushers, CountedBytes);
    TotalIdle(s0.pushers, ClosingCount);
    RunKeeps(s0, events);
  }

  /** While the writer is in its loop the counter is exactly the bytes in the
      channel, in the writer's hand and in unresolved pushes; it is never
      negative, and no subtraction about to happen can take it below zero. */
  lemma CounterIsExact(s: State)
    requires Reachable(s)
    ensures InLoop(s.writer) ==> s.queued == Bytes(s.chan) + InHand(s.writer) + Total(s.pushers, CountedBytes)
    ensures s.queued >= InHand(s.writer)
    ensures forall i :: 0 <= i < |s.pushers| && (s.pushers[i].Refused? || s.pushers[i].Undelivered?) ==>
                          s.queued >= |s.pushers[i].frame|
  {
    ReachableInv(s);
    forall i | 0 <= i < |s.pushers| && (s.pushers[i].Refused? || s.pushers[i].Undelivered?)
      ensures s.queued >= |s.pushers[i].frame|
    {
      TotalBounds(s.pushers, i, CountedBytes);
    }
  }

  ghost predicate Outstanding(s: State, f: Frame) {
    || f in s.chan
    || ((s.writer.Received? || s.writer.Writing? || s.writer.Wrote?) && s.writer.frame == f)
    || Phase.Admitted(f) in s.pushers
  }

  /** What the outbox holds fits the limit, or is one frame that was admitted
      when nothing else was queued. */
  lemma BacklogIsBounded(s: State)
    requires Reachable(s)
    ensures Admitted(s) <= s.limit || exists f :: Outstanding(s, f) && |f| == Admitted(s)
  {
    ReachableInv(s);
    if Admitted(s) > s.limit {
      if Bytes(s.chan) > 0 {
        var f := LongFrame(s.chan);
        assert Outstanding(s, f) && LengthFits(|f|, Admitted(s));
      } else if InHand(s.writer) > 0 {
        assert Outstanding(s, s.writer.frame) && LengthFits(InHand(s.writer), Admitted(s));
      } else {
        AdmittedMember(s.pushers);
        var p :| p in s.pushers && p.Admitted? && 0 < |p.frame| <= Total(s.pushers, AdmittedBytes);
        assert Outstanding(s, p.frame);
      }
    }
  }

  lemma {:induction false} LongFrame(frames: seq<Frame>) returns (f: Frame)
    requires Bytes(frames) > 0
    ensures f in frames && |f| > 0
  {
    if |frames[0]| > 0 {
      f := frames[0];
    } else {
      f := LongFrame(frames[1..]);
    }
  }

  /** The destination gets the frames in the order the channel took them, and
      none is skipped; once the writer has caught up it has them all. */
  lemma WritesInOrder(s: State)
    requires Reachable(s)
    ensures s.written <= s.enqueued
    ensures s.writer.Waiting? && s.chan == [] ==> s.written == s.enqueued
  {
    ReachableInv(s);
  }

  /** The overflow action runs at most once, only after a refusal, and a refusal
      made while the writer was draining met a backlog that the frame really did
      not fit on top of. */
  lemma OverflowIsEarnedOnce(s: State)
    requires Reachable(s)
    ensures s.runs <= 1
    ensures s.runs == 1 ==> s.closed && s.firstRefusal.Some?
    ensures s.firstRefusal.Some? && s.firstRefusal.value.draining ==>
              s.firstRefusal.value.admitted > 0 &&
              s.firstRefusal.value.admitted + s.firstRefusal.value.len > s.limit
  {
    ReachableInv(s);
  }

  /** Once a refused call has returned the outbox is closed, and if the writer is
      still in its loop the overflow action has run, exactly once. */
  lemma OverflowActs(s: State)
    requires Reachable(s)
    ensures s.closed && InLoop(s.writer) ==> s.runs + Total(s.pushers, ClosingCount) == 1
    ensures s.firstRefusal.Some? && (forall p :: p in s.pushers ==> !Refusing(p)) ==>
              s.closed && (InLoop(s.writer) ==> s.runs == 1)
  {
    ReachableInv(s);
    if forall p :: p in s.pushers ==> !Refusing(p) {
      NoneClosing(s.pushers);
    }
  }

  lemma {:induction false} NoneClosing(phases: seq<Phase>)
    requires forall p :: p in phases ==> !Refusing(p)
    ensures Total(phases, ClosingCount) == 0 && Total(phases, PendingCount) == 0
  {
    if phases != [] {
      assert phases[0] in phases && forall p :: p in phases[1..] ==> p in phases;
      NoneClosing(phases[1..]);
    }
  }

  /** A drained outbox with no other push under way takes a frame of any length. */
  lemma EmptyTakesAnyFrame(s: State, i: nat, frame: Frame)
    requires Reachable(s) && s.writer.Waiting? && s.chan == [] && i < |s.pushers| && s.pushers[i] == Checked(frame)
    requires forall j :: 0 <= j < |s.pushers| && j != i ==> s.pushers[j] == Idle
    ensures Run(s, [Resume(i), Resume(i)]).Some?
    ensures var s' := Run(s, [Resume(i), Resume(i)]).value; s'.chan == [frame] && s'.enqueued == s.written + [frame]
  {
    ReachableInv(s);
    PusherMoves(s, i, Idle);
    TotalIdle(s.pushers[i := Idle], CountedBytes);
    assert s.queued == 0;
    var s1 := CountStep(s, i, frame);
    assert Next(s, Resume(i)) == Some(s1) && Next(s1, Resume(i)) == Some(SendStep(s1, i, frame));
    assert [Resume(i), Resume(i)][1..] == [Resume(i)] && [Resume(i)][1..] == [];
    assert Run(s1, [Resume(i)]) == Some(SendStep(s1, i, frame));
    assert s.enqueued == s.written;
  }

  /** Closed is never undone. */
  lemma {:induction false} ClosedStays(s: State, events: seq<Event>)
    requires s.closed && Run(s, events).Some?
    ensures Run(s, events).value.closed
    decreases |events|
  {
    if events != [] {
      assert Next(s, events[0]).value.closed;
      ClosedStays(Next(s, events[0]).value, events[1..]);
    }
  }

  // ---- Calls return and frames get through.

  /** A call begins exactly at an idle handle: on an open outbox it goes on to count
      its frame, on a closed one it changes nothing. */
  lemma PushBegins(s: State, i: nat, frame: Frame)
    ensures Next(s, Push(i, frame)).Some? <==> i < |s.pushers| && s.pushers[i] == Idle
    ensures Next(s, Push(i, frame)).Some? ==>
              Next(s, Push(i, frame)).value ==
              if s.closed then s else s.(pushers := s.pushers[i := Checked(frame)])
  {
  }

  /** Accesses a call still has to make. */
  function StepsLeft(p: Phase): nat {
    match p
    case Idle => 0
    case Checked(_) => 4
    case Admitted(_) => 2
    case Refused(_) => 3
    case Overflowing => 2
    case Closing => 1
    case Undelivered(_) => 1
  }

  /** A call never waits: each access can be made at once, brings it nearer to its
      return, and leaves every other call where it is. */
  lemma CallAdvances(s: State, i: nat)
    requires i < |s.pushers| && s.pushers[i] != Idle
    ensures var next := Next(s, Resume(i));
            && next.Some? && |next.value.pushers| == |s.pushers|
            && StepsLeft(next.value.pushers[i]) < StepsLeft(s.pushers[i])
            && (forall j :: 0 <= j < |s.pushers| && j != i ==> next.value.pushers[j] == s.pushers[j])
            && next.value.writer == s.writer && next.value.written == s.written
  {
  }

  lemma {:induction false} CallReturns(s: State, i: nat) returns (events: seq<Event>)
    requires i < |s.pushers|
    ensures |events| <= StepsLeft(s.pushers[i]) && forall e :: e in events ==> e == Resume(i)
    ensures Run(s, events).Some? && |Run(s, events).value.pushers| == |s.pushers|
    ensures Run(s, events).value.pushers == s.pushers[i := Idle]
    decreases StepsLeft(s.pushers[i])
  {
    if s.pushers[i] == Idle {
      events := [];
    } else {
      CallAdvances(s, i);
      var s1 := Next(s, Resume(i)).value;
      var rest := CallReturns(s1, i);
      events := [Resume(i)] + rest;
      assert events[1..] == rest;
      assert s1.pushers[i := Idle] == s.pushers[i := Idle];
    }
  }

  /** A frame past the limit on an open, draining outbox: after its call the outbox is
      closed and the action has run. */
  lemma RefusalActs(s: State, i: nat, frame: Frame)
    requires Reachable(s) && InLoop(s.writer) && !s.closed && i < |s.pushers| && s.pushers[i] == Checked(frame)
    requires s.queued > 0 && s.queued + |frame| > s.limit
    ensures var s' := Run(s, [Resume(i), Resume(i), Resume(i), Resume(i)]);
            && s'.Some? && s'.value.closed && s'.value.runs == 1 && s'.value.queued == s.queued
            && s'.value.pushers == s.pushers[i := Idle]
  {
    ReachableInv(s);
    var s1 := CountStep(s, i, frame);
    var s2 := UncountStep(s1, i, frame, Overflowing);
    var s3 := SwapStep(s2, i);
    RunStep(s, Resume(i), [Resume(i), Resume(i), Resume(i)]);
    RunStep(s1, Resume(i), [Resume(i), Resume(i)]);
    RunStep(s2, Resume(i), [Resume(i)]);
    RunStep(s3, Resume(i), []);
    assert s3.pushers[i := Idle] == s.pushers[i := Idle];
  }

  lemma RunStep(s: State, e: Event, rest: seq<Event>)
    requires Next(s, e).Some?
    ensures Run(s, [e] + rest) == Run(Next(s, e).value, rest)
  {
    assert ([e] + rest)[1..] == rest;
  }

  /** The writer takes the oldest frame, writes it and uncounts it, and is ready for
      the next. */
  lemma WriterDelivers(s: State)
    requires s.writer.Waiting? && s.chan != [] && !s.closed
    ensures var s' := Run(s, [Drain(true), Drain(true), Drain(true), Drain(true)]);
            && s'.Some? && s'.value == s.(chan := s.chan[1..], written := s.written + [s.chan[0]],
                                          queued := s.queued - |s.chan[0]|)
  {
    var frame := s.chan[0];
    var s1 := s.(chan := s.chan[1..], writer := Received(frame));
    var s2 := s1.(writer := Writing(frame));
    var s3 := s2.(writer := Wrote(frame, true), written := s.written + [frame]);
    RunStep(s, Drain(true), [Drain(true), Drain(true), Drain(true)]);
    RunStep(s1, Drain(true), [Drain(true), Drain(true)]);
    RunStep(s2, Drain(true), [Drain(true)]);
    RunStep(s3, Drain(true), []);
  }

  /** A failed write closes the outbox, writes nothing and ends the writer, which
      drops what is left. */
  lemma WriterFails(s: State)
    requires s.writer.Writing?
    ensures var s' := Run(s, [Drain(false), Drain(false), Drain(false), Drain(false)]);
            && s'.Some? && s'.value.closed && s'.value.writer == Gone && s'.value.chan == []
            && s'.value.written == s.written && s'.value.queued == s.queued - |s.writer.frame|
  {
    var frame := s.writer.frame;
    var s1 := s.(writer := Wrote(frame, false));
    var s2 := s1.(queued := s.queued - |frame|, writer := Failing);
    var s3 := s2.(closed := true, writer := Exiting);
    RunStep(s, Drain(false), [Drain(false), Drain(false), Drain(false)]);
    RunStep(s1, Drain(false), [Drain(false), Drain(false)]);
    RunStep(s2, Drain(false), [Drain(false)]);
    RunStep(s3, Drain(false), []);
  }

  /** A writer that finds the outbox closed drops its frame and what is left, and is
      gone. */
  lemma WriterStops(s: State)
    requires s.writer.Received? && s.closed
    ensures var s' := Run(s, [Drain(true), Drain(true)]);
            && s'.Some? && s'.value.writer == Gone && s'.value.chan == [] && s'.value.written == s.written
            && s'.value.abandoned == s.abandoned + |s.writer.frame| + Bytes(s.chan)
  {
    var s1 := s.(writer := Exiting, abandoned := s.abandoned + |s.writer.frame|);
    RunStep(s, Drain(true), [Drain(true)]);
    RunStep(s1, Drain(true), []);
  }

  /** Once closed, nothing is taken up for writing any more. */
  lemma {:induction false} ClosedWritesNoMore(s: State, events: seq<Event>)
    requires s.closed && !s.writer.Writing? && Run(s, events).Some?
    ensures Run(s, events).value.written == s.written && !Run(s, events).value.writer.Writing?
    decreases |events|
  {
    if events != [] {
      ClosedWritesNoMore(Next(s, events[0]).value, events[1..]);
    }
  }

  /** The writer waits exactly for a frame or, while a call is under way, for that
      call; with neither it ends. */
  lemma WriterWaits(s: State, ok: bool)
    requires s.writer.Waiting? && s.chan == []
    ensures Next(s, Drain(ok)).None? <==> exists p :: p in s.pushers && p != Idle
    ensures Next(s, Drain(ok)).Some? ==> Next(s, Drain(ok)).value == s.(writer := Exiting)
  {
  }

  /** After the writer is gone a frame is not delivered and not counted. */
  lemma GoneRefuses(s: State, i: nat, frame: Frame)
    requires s.writer.Gone? && i < |s.pushers| && s.pushers[i] == Phase.Admitted(frame)
    ensures Run(s, [Resume(i), Resume(i)]) == Some(s.(queued := s.queued - |frame|, pushers := s.pushers[i := Idle]))
  {
    var s1 := s.(pushers := s.pushers[i := Undelivered(frame)]);
    RunStep(s, Resume(i), [Resume(i)]);
    RunStep(s1, Resume(i), []);
    assert s1.pushers[i := Idle] == s.pushers[i := Idle];
  }
}

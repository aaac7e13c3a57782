/** The recording session lifecycle: a pure reducer over a tagged-union state and
    event type, wrapped by a dispatcher that replaces the state and notifies the
    `stateChange` listeners only when a transition actually happens. */
module RecordingSession {
  import opened Wrappers
  import opened RecordingTypes

  datatype State =
    | Idle
    | Acquiring(requestedTracks: seq<TrackKind>)
    | Recording(sessionId: string, activeTracks: seq<TrackKind>, startTime: int)
    | Degraded(sessionId: string, activeTracks: seq<TrackKind>, lostTracks: seq<TrackKind>, startTime: int)
    | Stopping(sessionId: string)
    | Errored(message: string, lastSessionId: Option<string>)

  datatype Event =
    | Start(requestedTracks: seq<TrackKind>)
    | Acquired(sessionId: string, tracks: seq<TrackKind>)
    | TrackLost(track: TrackKind)
    | AllTracksLost
    | Stop
    | Finalized
    | Error(reason: string)
    | Dismiss

  /** `tracks.filter((x) => x !== t)`: every occurrence of t removed, the rest kept in order. */
  function Without(tracks: seq<TrackKind>, t: TrackKind): (r: seq<TrackKind>)
    ensures t !in r
    ensures multiset(r) == multiset(tracks)[t := 0]
  {
    if |tracks| == 0 then []
    else
      var rest := Without(tracks[1..], t);
      assert tracks == [tracks[0]] + tracks[1..];
      if tracks[0] == t then rest else [tracks[0]] + rest
  }

  function FromIdle(e: Event): Option<State> {
    if e.Start? then Some(Acquiring(e.requestedTracks)) else None
  }

  /** `now` is the clock reading (`Date.now()`) taken when ACQUIRED arrives. */
  function FromAcquiring(e: Event, now: int): Option<State> {
    if e.Acquired? then Some(Recording(e.sessionId, e.tracks, now))
    else if e.Error? then Some(Errored(e.reason, None))
    else None
  }

  function FromRecording(s: State, e: Event): Option<State>
    requires s.Recording?
  {
    if e.TrackLost? then
      var remaining := Without(s.activeTracks, e.track);
      if |remaining| == 0 then Some(Stopping(s.sessionId))
      else Some(Degraded(s.sessionId, remaining, [e.track], s.startTime))
    else if e.Stop? then Some(Stopping(s.sessionId))
    else if e.Error? then Some(Stopping(s.sessionId))
    else None
  }

  function FromDegraded(s: State, e: Event): Option<State>
    requires s.Degraded?
  {
    if e.TrackLost? then
      var remaining := Without(s.activeTracks, e.track);
      if |remaining| == 0 then Some(Stopping(s.sessionId))
      else Some(s.(activeTracks := remaining, lostTracks := s.lostTracks + [e.track]))
    else if e.Stop? || e.AllTracksLost? then Some(Stopping(s.sessionId))
    else if e.Error? then Some(Stopping(s.sessionId))
    else None
  }

  function FromStopping(s: State, e: Event): Option<State>
    requires s.Stopping?
  {
    if e.Finalized? then Some(Idle)
    else if e.Error? then Some(Errored(e.reason, Some(s.sessionId)))
    else None
  }

  function FromError(e: Event): Option<State> {
    if e.Dismiss? then Some(Idle) else None
  }

  /** Which events each state reacts to; every other pair is ignored. */
  predicate Accepts(s: State, e: Event) {
    match s
    case Idle => e.Start?
    case Acquiring(_) => e.Acquired? || e.Error?
    case Recording(_, _, _) => e.TrackLost? || e.Stop? || e.Error?
    case Degraded(_, _, _, _) => e.TrackLost? || e.Stop? || e.AllTracksLost? || e.Error?
    case Stopping(_) => e.Finalized? || e.Error?
    case Errored(_, _) => e.Dismiss?
  }

  /** The reducer: the next state, or None when the event does not apply in this state. */
  function Transition(s: State, e: Event, now: int): (r: Option<State>)
    ensures r.Some? <==> Accepts(s, e)
    ensures r == Some(Idle) ==> (s.Stopping? && e.Finalized?) || (s.Errored? && e.Dismiss?)
  {
    match s
    case Idle => FromIdle(e)
    case Acquiring(_) => FromAcquiring(e, now)
    case Recording(_, _, _) => FromRecording(s, e)
    case Degraded(_, _, _, _) => FromDegraded(s, e)
    case Stopping(_) => FromStopping(s, e)
    case Errored(_, _) => FromError(e)
  }

  // ---------------------------------------------------------------------------
  // Listeners and dispatch

  /** The two notification channels of the session (`stateChange` and `error`). */
  datatype Channel = StateChange | ErrorChannel

  /** A registered callback, identified by the caller. */
  type ListenerId = nat

  /** The session object: its current state and, per channel, the registered listeners
      in registration order (a JavaScript Set iterates in insertion order). */
  datatype Machine = Machine(state: State, listeners: map<Channel, seq<ListenerId>>)

  /** A freshly constructed session: idle, nobody listening. */
  const Initial: Machine := Machine(Idle, map[])

  /** The listeners registered on a channel. */
  function Subscribers(m: Machine, ch: Channel): seq<ListenerId> {
    if ch in m.listeners then m.listeners[ch] else []
  }

  /** No element occurs twice. */
  ghost predicate Distinct<T>(ls: seq<T>) {
    forall i, j :: 0 <= i < j < |ls| ==> ls[i] != ls[j]
  }

  /** No listener is registered twice on one channel. */
  ghost predicate DistinctListeners(m: Machine) {
    forall ch :: ch in m.listeners ==> Distinct(m.listeners[ch])
  }

  /** `on(channel, listener)`: adds the listener unless it is already registered. */
  function On(m: Machine, ch: Channel, l: ListenerId): (r: Machine)
    ensures r.state == m.state
    ensures l in Subscribers(r, ch)
    ensures |Subscribers(r, ch)| == |Subscribers(m, ch)| + (if l in Subscribers(m, ch) then 0 else 1)
    ensures Subscribers(r, ch)[..|Subscribers(m, ch)|] == Subscribers(m, ch)
    ensures forall other :: other != ch ==> Subscribers(r, other) == Subscribers(m, other)
    ensures DistinctListeners(m) ==> DistinctListeners(r)
  {
    var ls := Subscribers(m, ch);
    if l in ls then m.(listeners := m.listeners[ch := ls])
    else m.(listeners := m.listeners[ch := ls + [l]])
  }

  /** The unsubscribe closure `on` returns: removes the listener from its channel. */
  function Off(m: Machine, ch: Channel, l: ListenerId): (r: Machine)
    ensures r.state == m.state
    ensures l !in Subscribers(r, ch)
    ensures forall x :: x != l ==> (x in Subscribers(r, ch) <==> x in Subscribers(m, ch))
    ensures l !in Subscribers(m, ch) ==> r == m
    ensures DistinctListeners(m) ==>
      forall j :: 0 <= j < |Subscribers(m, ch)| && Subscribers(m, ch)[j] == l ==>
        Subscribers(r, ch) == Subscribers(m, ch)[..j] + Subscribers(m, ch)[j + 1..]
    ensures forall other :: other != ch ==> Subscribers(r, other) == Subscribers(m, other)
    ensures DistinctListeners(m) ==> DistinctListeners(r)
  {
    if ch !in m.listeners then m
    else
      var ls := m.listeners[ch];
      assert DistinctListeners(m) ==>
        forall j :: 0 <= j < |ls| && ls[j] == l ==> Drop(ls, l) == ls[..j] + ls[j + 1..] by {
        if DistinctListeners(m) {
          forall j | 0 <= j < |ls| && ls[j] == l ensures Drop(ls, l) == ls[..j] + ls[j + 1..] {
            DropAt(ls, l, j);
          }
        }
      }
      m.(listeners := m.listeners[ch := Drop(ls, l)])
  }

  /** The listener sequence without l; order and distinctness are kept. */
  function Drop(ls: seq<ListenerId>, l: ListenerId): (r: seq<ListenerId>)
    ensures l !in r
    ensures forall x :: x != l ==> (x in r <==> x in ls)
    ensures Distinct(ls) ==> Distinct(r)
    ensures l !in ls ==> r == ls
  {
    if |ls| == 0 then []
    else
      var rest := Drop(ls[1..], l);
      assert ls == [ls[0]] + ls[1..];
      assert Distinct(ls) ==> ls[0] !in ls[1..] && Distinct(ls[1..]) by {
        if Distinct(ls) {
          DistinctTail(ls);
        }
      }
      if ls[0] == l then rest else [ls[0]] + rest
  }

  lemma DistinctTail(ls: seq<ListenerId>)
    requires Distinct(ls) && |ls| > 0
    ensures ls[0] !in ls[1..] && Distinct(ls[1..])
  {
    forall k | 0 <= k < |ls[1..]| ensures ls[1..][k] != ls[0] {
      assert ls[1..][k] == ls[k + 1];
    }
  }

  /** With distinct listeners, Drop cuts out exactly the one position holding l. */
  lemma {:induction false} DropAt(ls: seq<ListenerId>, l: ListenerId, j: nat)
    requires Distinct(ls) && j < |ls| && ls[j] == l
    ensures Drop(ls, l) == ls[..j] + ls[j + 1..]
    decreases j
  {
    DistinctTail(ls);
    if j == 0 {
      assert Drop(ls, l) == Drop(ls[1..], l) == ls[1..];
      assert ls[..0] + ls[1..] == ls[1..];
    } else {
      assert ls[0] != ls[j];
      assert Drop(ls, l) == [ls[0]] + Drop(ls[1..], l);
      assert ls[1..][j - 1] == l;
      DropAt(ls[1..], l, j - 1);
      assert ls[..j] == [ls[0]] + ls[1..][..j - 1];
      assert ls[j + 1..] == ls[1..][j..];
    }
  }

  /** One listener invocation with the state it was given. */
  datatype Call = Call(listener: ListenerId, state: State)

  /** `emit("stateChange", s)`: each listener called in registration order. */
  function Emit(ls: seq<ListenerId>, s: State): (calls: seq<Call>)
    ensures |calls| == |ls|
    ensures forall i :: 0 <= i < |ls| ==> calls[i] == Call(ls[i], s)
  {
    if |ls| == 0 then [] else [Call(ls[0], s)] + Emit(ls[1..], s)
  }

  datatype Dispatched = Dispatched(machine: Machine, calls: seq<Call>)

  /** `dispatch(event)`: on a transition the state is replaced and every stateChange
      listener is called with the new state; otherwise nothing happens. */
  function Dispatch(m: Machine, e: Event, now: int): (r: Dispatched)
    ensures Transition(m.state, e, now).None? ==> r == Dispatched(m, [])
    ensures Transition(m.state, e, now).Some? ==>
      && r.machine == m.(state := Transition(m.state, e, now).value)
      && |r.calls| == |Subscribers(m, StateChange)|
      && forall i :: 0 <= i < |r.calls| ==>
           r.calls[i] == Call(Subscribers(m, StateChange)[i], r.machine.state)
  {
    var next := Transition(m.state, e, now);
    if next.None? then Dispatched(m, [])
    else Dispatched(m.(state := next.value), Emit(Subscribers(m, StateChange), next.value))
  }

  /** A transition calls each registered stateChange listener exactly once: the calls
      name exactly the subscribers, none twice. */
  lemma DispatchNotifiesEachListenerOnce(m: Machine, e: Event, now: int)
    requires DistinctListeners(m)
    requires Transition(m.state, e, now).Some?
    ensures var calls := Dispatch(m, e, now).calls;
      && (forall l :: l in Subscribers(m, StateChange) <==>
            exists i :: 0 <= i < |calls| && calls[i].listener == l)
      && (forall i, j :: 0 <= i < j < |calls| ==> calls[i].listener != calls[j].listener)
      && (forall i :: 0 <= i < |calls| ==> calls[i].state == Transition(m.state, e, now).value)
  {
    var calls := Dispatch(m, e, now).calls;
    var ls := Subscribers(m, StateChange);
    assert Distinct(ls);
    forall l | l in ls ensures exists i :: 0 <= i < |calls| && calls[i].listener == l {
      var i :| 0 <= i < |ls| && ls[i] == l;
      assert calls[i].listener == l;
    }
  }

  // ---------------------------------------------------------------------------
  // The transition table

  /** START is accepted only in idle, and the requested tracks pass through unchanged. */
  lemma StartOnlyFromIdle(s: State, tracks: seq<TrackKind>, now: int)
    ensures s.Idle? ==> Transition(s, Start(tracks), now) == Some(Acquiring(tracks))
    ensures !s.Idle? ==> Transition(s, Start(tracks), now).None?
  {
  }

  /** ACQUIRED is accepted only while acquiring; it starts recording every acquired
      track under the given session id at the current clock reading. */
  lemma AcquiredOnlyFromAcquiring(s: State, id: string, tracks: seq<TrackKind>, now: int)
    ensures s.Acquiring? ==> Transition(s, Acquired(id, tracks), now) == Some(Recording(id, tracks, now))
    ensures !s.Acquiring? ==> Transition(s, Acquired(id, tracks), now).None?
  {
  }

  /** ERROR is routed by state: acquiring fails without a session, a running session
      stops so its captured audio can be finalized, stopping fails and keeps the session
      id, and idle and error ignore it. */
  lemma ErrorRouting(s: State, reason: string, now: int)
    ensures s.Acquiring? ==> Transition(s, Error(reason), now) == Some(Errored(reason, None))
    ensures s.Recording? || s.Degraded? ==>
      Transition(s, Error(reason), now) == Some(Stopping(s.sessionId))
    ensures s.Stopping? ==>
      Transition(s, Error(reason), now) == Some(Errored(reason, Some(s.sessionId)))
    ensures s.Idle? || s.Errored? ==> Transition(s, Error(reason), now).None?
  {
  }

  /** TRACK_LOST in a running session removes every occurrence of the track; when no
      track remains the session stops, otherwise it is degraded with the same session
      id and start time, the survivors as active tracks and the lost track appended to
      the lost list. */
  lemma TrackLostOutcome(s: State, t: TrackKind, now: int)
    requires s.Recording? || s.Degraded?
    ensures var r := Transition(s, TrackLost(t), now);
      && r.Some?
      && (multiset(s.activeTracks)[t := 0] == multiset{} ==> r.value == Stopping(s.sessionId))
      && (multiset(s.activeTracks)[t := 0] != multiset{} ==>
            && r.value.Degraded?
            && r.value.sessionId == s.sessionId
            && r.value.startTime == s.startTime
            && t !in r.value.activeTracks
            && multiset(r.value.activeTracks) == multiset(s.activeTracks)[t := 0]
            && r.value.lostTracks == (if s.Recording? then [] else s.lostTracks) + [t])
  {
    var remaining := Without(s.activeTracks, t);
    assert |remaining| == 0 <==> multiset(remaining) == multiset{};
  }

  /** ALL_TRACKS_LOST stops a degraded session and is ignored everywhere else, a
      recording session included. */
  lemma AllTracksLostOnlyFromDegraded(s: State, now: int)
    ensures s.Degraded? ==> Transition(s, AllTracksLost, now) == Some(Stopping(s.sessionId))
    ensures !s.Degraded? ==> Transition(s, AllTracksLost, now).None?
  {
  }

  /** The only ways back to idle are FINALIZED while stopping and DISMISS in error. */
  lemma IdleOnlyViaFinalizedOrDismiss(s: State, e: Event, now: int)
    ensures Transition(s, e, now) == Some(Idle) <==>
      (s.Stopping? && e.Finalized?) || (s.Errored? && e.Dismiss?)
  {
  }

  // ---------------------------------------------------------------------------
  // Invariants along event sequences

  /** A running session has at least one active track, and a degraded one has lost at
      least one track that is no longer active. */
  predicate WellFormed(s: State) {
    && (s.Recording? ==> |s.activeTracks| > 0)
    && (s.Degraded? ==>
          && |s.activeTracks| > 0 && |s.lostTracks| > 0
          && forall t :: t in s.lostTracks ==> t !in s.activeTracks)
  }

  /** An ACQUIRED event that names at least one track; the caller only starts a session
      when some track is enabled. */
  predicate NonEmptyAcquire(e: Event) {
    e.Acquired? ==> |e.tracks| > 0
  }

  /** Every transition on such events keeps the state well formed: in particular
      TRACK_LOST never leaves an empty recording or degraded session behind. */
  lemma TransitionKeepsWellFormed(s: State, e: Event, now: int)
    requires WellFormed(s) && NonEmptyAcquire(e)
    ensures Transition(s, e, now).Some? ==> WellFormed(Transition(s, e, now).value)
  {
    if e.TrackLost? && (s.Recording? || s.Degraded?) {
      var remaining := Without(s.activeTracks, e.track);
      forall x | x in remaining ensures x in s.activeTracks && x != e.track {
        assert multiset(remaining)[x] > 0;
      }
    }
  }

  /** An event paired with the clock reading at its dispatch. */
  datatype Stamped = Stamped(event: Event, now: int)

  /** The state after one dispatch. */
  function Step(s: State, x: Stamped): State {
    Transition(s, x.event, x.now).GetOr(s)
  }

  /** The state after dispatching a sequence of events in order. */
  function Replay(s: State, xs: seq<Stamped>): State
    decreases |xs|
  {
    if |xs| == 0 then s else Replay(Step(s, xs[0]), xs[1..])
  }

  /** Starting from a well-formed state, no sequence of events whose ACQUIREDs name a
      track reaches an empty recording or degraded session. */
  lemma {:induction false} ReplayKeepsWellFormed(s: State, xs: seq<Stamped>)
    requires WellFormed(s)
    requires forall i :: 0 <= i < |xs| ==> NonEmptyAcquire(xs[i].event)
    ensures WellFormed(Replay(s, xs))
    decreases |xs|
  {
    if |xs| > 0 {
      TransitionKeepsWellFormed(s, xs[0].event, xs[0].now);
      ReplayKeepsWellFormed(Step(s, xs[0]), xs[1..]);
    }
  }

  /** An ACQUIRED with no tracks is accepted as is and yields a recording session with
      no active track, which is why the invariant above needs its hypothesis. */
  lemma EmptyAcquireRecordsNothing(requested: seq<TrackKind>, id: string, now: int)
    ensures Transition(Acquiring(requested), Acquired(id, []), now) == Some(Recording(id, [], now))
    ensures !WellFormed(Recording(id, [], now))
  {
  }

  /** The session id a state carries: the running, degraded and stopping states' id and
      the error state's last session id. */
  function Owner(s: State): Option<string> {
    match s
    case Recording(id, _, _) => Some(id)
    case Degraded(id, _, _, _) => Some(id)
    case Stopping(id) => Some(id)
    case Errored(_, last) => last
    case _ => None
  }

  /** One dispatch never changes the carried session id, except that ACQUIRED in
      acquiring introduces the id it names. */
  lemma StepKeepsOwner(s: State, x: Stamped)
    requires Owner(Step(s, x)).Some?
    ensures || Owner(Step(s, x)) == Owner(s)
            || (s.Acquiring? && x.event.Acquired? && Owner(Step(s, x)) == Some(x.event.sessionId))
  {
  }

  /** The session id named by the last ACQUIRED that was accepted while replaying xs
      from s, if any. */
  function LastAcquired(s: State, xs: seq<Stamped>): Option<string>
    decreases |xs|
  {
    if |xs| == 0 then None
    else
      var later := LastAcquired(Step(s, xs[0]), xs[1..]);
      if later.Some? then later
      else if s.Acquiring? && xs[0].event.Acquired? then Some(xs[0].event.sessionId)
      else None
  }

  /** Along any event sequence, the session id carried by the reached state is the one
      given by the last accepted ACQUIRED, or the one carried at the start when no
      ACQUIRED was accepted. */
  lemma {:induction false} ReplayKeepsOwner(s: State, xs: seq<Stamped>)
    requires Owner(Replay(s, xs)).Some?
    ensures || Owner(Replay(s, xs)) == LastAcquired(s, xs)
            || (LastAcquired(s, xs).None? && Owner(Replay(s, xs)) == Owner(s))
    decreases |xs|
  {
    if |xs| > 0 {
      var s' := Step(s, xs[0]);
      ReplayKeepsOwner(s', xs[1..]);
      if LastAcquired(s', xs[1..]).None? {
        StepKeepsOwner(s, xs[0]);
      }
    }
  }

  /** From a fresh session, whatever id the reached state carries was introduced by the
      last accepted ACQUIRED. */
  lemma OwnerFromIdleIsLastAcquired(xs: seq<Stamped>)
    requires Owner(Replay(Idle, xs)).Some?
    ensures Owner(Replay(Idle, xs)) == LastAcquired(Idle, xs)
  {
    ReplayKeepsOwner(Idle, xs);
  }
}

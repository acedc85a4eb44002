/**
 * The hand-tracking stream client. It keeps one socket to the tracking
 * service, publishes the latest landmarks, the frame count, a connection
 * status and an error message, and after an abnormal close reconnects with a
 * linearly growing delay, at most five times in a row.
 *
 * The socket, the message decoder and the timers are replaced by explicit
 * events: the runtime's sockets are a map from handle to ready state, its
 * scheduled reconnects a map from timer handle to due time. The pure part
 * (StreamState and the Step functions) states what each event does; the class
 * HandStreamClient performs the same updates in place and is proved against it.
 */
module HandStream {
  import opened Common

  /** Consecutive reconnects allowed before the client gives up. */
  const MaxReconnectAttempts: nat := 5

  /** The k-th consecutive reconnect is scheduled k times this many milliseconds after the close. */
  const ReconnectBaseDelay: int := 2000

  /** The close code of a deliberate, normal closure. */
  const NormalClosure: int := 1000

  const SocketErrorMessage: string := "WebSocket connection error"
  const CreateFailedMessage: string := "Failed to connect to hand tracking server"
  const MaxAttemptsMessage: string := "Max reconnection attempts reached. Please refresh the page."

  /** The published connection status. */
  datatype Status = Connecting | Connected | Disconnected | Error

  /** A socket's ready state, as the runtime keeps it. */
  datatype ReadyState = Connecting | Open | Closing | Closed

  /**
   * A decoded inbound message: either it failed to decode, or it is an object
   * whose `error`, `landmarks` and `frame_count` fields may each be absent.
   */
  datatype Message =
    | Unparseable
    | Payload(error: Option<string>, landmarks: Option<seq<Point3>>, frameCount: Option<int>)

  /** A message takes the error path when its `error` field is a non-empty string. */
  predicate CarriesError(msg: Message) {
    msg.Payload? && msg.error.Some? && msg.error.value != ""
  }

  /**
   * The hook's state: the published cells, the refs `ws` (a socket handle),
   * `reconnectTimeout` (a timer handle) and the attempt counter, and the
   * runtime's sockets and scheduled reconnects. Handles come from one counter.
   */
  datatype StreamState = StreamState(
    status: Status,
    error: Option<string>,
    landmarks: Option<seq<Point3>>,
    frameCount: int,
    ws: Option<nat>,
    reconnectTimeout: Option<nat>,
    attempts: nat,
    sockets: map<nat, ReadyState>,
    reconnects: map<nat, int>,
    nextHandle: nat)

  /** The state when the hook mounts, before its first `connect`. */
  function Initial(): StreamState {
    StreamState(Status.Disconnected, None, None, 0, None, None, 0, map[], map[], 0)
  }

  /** The handles a timer ref holds. */
  function Handles(ref: Option<nat>): set<nat> {
    if ref.Some? then {ref.value} else {}
  }

  /**
   * What every reachable state satisfies: the attempt counter is within the
   * cap, the socket ref names a socket that has not closed, and handles are
   * fresh.
   */
  ghost predicate Invariant(s: StreamState) {
    && s.attempts <= MaxReconnectAttempts
    && (s.ws.Some? ==> s.ws.value in s.sockets && s.sockets[s.ws.value] != ReadyState.Closed)
    && (forall h :: h in s.sockets ==> h < s.nextHandle)
    && (forall h :: h in s.reconnects ==> h < s.nextHandle)
    && (s.reconnectTimeout.Some? ==> s.reconnectTimeout.value < s.nextHandle)
  }

  lemma InitialInvariant()
    ensures Invariant(Initial())
  {
  }

  /** The socket ref names an open socket. */
  predicate IsOpen(s: StreamState) {
    s.ws.Some? && s.ws.value in s.sockets && s.sockets[s.ws.value] == ReadyState.Open
  }

  /** What `close(1000)` does to a socket's ready state. */
  function CloseRequested(rs: ReadyState): ReadyState {
    if rs == ReadyState.Connecting || rs == ReadyState.Open then ReadyState.Closing else rs
  }

  // ---------------------------------------------------------------------------
  // The events

  /**
   * `connect`: nothing when the socket is already open; otherwise status
   * `connecting`, error cleared, and a new socket, unless creating it throws,
   * in which case status `error` with a fixed message.
   */
  function StepConnect(s: StreamState, creationFails: bool): (t: StreamState)
    ensures IsOpen(s) ==> t == s
    ensures !IsOpen(s) ==>
              && t.attempts == s.attempts && t.landmarks == s.landmarks && t.frameCount == s.frameCount
              && t.reconnectTimeout == s.reconnectTimeout && t.reconnects == s.reconnects
    ensures !IsOpen(s) && !creationFails ==>
              && t.status == Status.Connecting && t.error.None?
              && t.ws == Some(s.nextHandle) && t.sockets == s.sockets[s.nextHandle := ReadyState.Connecting]
              && t.nextHandle == s.nextHandle + 1
    ensures !IsOpen(s) && creationFails ==>
              && t.status == Status.Error && t.error == Some(CreateFailedMessage)
              && t.ws == s.ws && t.sockets == s.sockets && t.nextHandle == s.nextHandle
  {
    if IsOpen(s) then s
    else if creationFails then s.(status := Status.Error, error := Some(CreateFailedMessage))
    else
      s.(status := Status.Connecting, error := None,
         ws := Some(s.nextHandle),
         sockets := s.sockets[s.nextHandle := ReadyState.Connecting],
         nextHandle := s.nextHandle + 1)
  }

  /** `onopen` of socket `sock`: connected, error cleared, attempt counter reset. */
  function StepOpen(s: StreamState, sock: nat): (t: StreamState)
    requires sock in s.sockets && s.sockets[sock] == ReadyState.Connecting
    ensures t.status == Status.Connected && t.error.None? && t.attempts == 0
    ensures t.sockets == s.sockets[sock := ReadyState.Open]
    ensures t.landmarks == s.landmarks && t.frameCount == s.frameCount && t.ws == s.ws
    ensures t.reconnectTimeout == s.reconnectTimeout && t.reconnects == s.reconnects && t.nextHandle == s.nextHandle
  {
    s.(sockets := s.sockets[sock := ReadyState.Open], status := Status.Connected, error := None, attempts := 0)
  }

  /**
   * `onmessage` of socket `sock`. An undecodable message changes nothing; an
   * error message sets the error and drops the landmarks; any other message
   * publishes its landmarks and its frame count (0 when absent). No message
   * touches the status, the socket or the retry counter.
   */
  function StepMessage(s: StreamState, sock: nat, msg: Message): (t: StreamState)
    requires sock in s.sockets
    ensures msg.Unparseable? ==> t == s
    ensures CarriesError(msg) ==>
              t.error == msg.error && t.landmarks.None? && t.frameCount == s.frameCount
    ensures msg.Payload? && !CarriesError(msg) ==>
              && t.landmarks == msg.landmarks && t.error == s.error
              && t.frameCount == (if msg.frameCount.Some? then msg.frameCount.value else 0)
    ensures t.status == s.status && t.ws == s.ws && t.attempts == s.attempts && t.sockets == s.sockets
    ensures t.reconnectTimeout == s.reconnectTimeout && t.reconnects == s.reconnects && t.nextHandle == s.nextHandle
  {
    match msg
    case Unparseable => s
    case Payload(err, marks, count) =>
      if CarriesError(msg) then s.(error := err, landmarks := None)
      else s.(landmarks := marks, frameCount := if count.Some? then count.value else 0)
  }

  /** `onerror` of socket `sock`: status `error` with a fixed message; nothing else. */
  function StepError(s: StreamState, sock: nat): (t: StreamState)
    requires sock in s.sockets
    ensures t.status == Status.Error && t.error == Some(SocketErrorMessage)
    ensures t == s.(status := t.status, error := t.error)
  {
    s.(error := Some(SocketErrorMessage), status := Status.Error)
  }

  /**
   * `onclose` of socket `sock` with close code `code` at time `now`. Any close
   * leaves the client disconnected with no landmarks and no socket. An
   * abnormal close under the cap counts one more attempt and schedules a
   * reconnect `attempts` times the base delay later; at the cap every close
   * reports that the attempts are exhausted and schedules nothing.
   */
  function StepClose(s: StreamState, sock: nat, code: int, now: int): (t: StreamState)
    requires sock in s.sockets && s.sockets[sock] != ReadyState.Closed
    ensures t.status == Status.Disconnected && t.landmarks.None? && t.ws.None?
    ensures t.sockets == s.sockets[sock := ReadyState.Closed] && t.frameCount == s.frameCount
    ensures code != NormalClosure && s.attempts < MaxReconnectAttempts ==>
              && t.attempts == s.attempts + 1
              && t.reconnectTimeout == Some(s.nextHandle)
              && t.reconnects == s.reconnects[s.nextHandle := now + ReconnectBaseDelay * t.attempts]
              && t.error == s.error && t.nextHandle == s.nextHandle + 1
    ensures code == NormalClosure || s.attempts >= MaxReconnectAttempts ==>
              && t.attempts == s.attempts
              && t.reconnectTimeout == s.reconnectTimeout && t.reconnects == s.reconnects
              && t.nextHandle == s.nextHandle
              && t.error == (if s.attempts >= MaxReconnectAttempts then Some(MaxAttemptsMessage) else s.error)
  {
    var closed := s.(sockets := s.sockets[sock := ReadyState.Closed],
                     status := Status.Disconnected, landmarks := None, ws := None);
    if code != NormalClosure && s.attempts < MaxReconnectAttempts then
      var attempt := s.attempts + 1;
      closed.(attempts := attempt,
              reconnectTimeout := Some(s.nextHandle),
              reconnects := s.reconnects[s.nextHandle := now + ReconnectBaseDelay * attempt],
              nextHandle := s.nextHandle + 1)
    else if s.attempts >= MaxReconnectAttempts then
      closed.(error := Some(MaxAttemptsMessage))
    else closed
  }

  /**
   * `disconnect`: cancels the reconnect the ref holds, asks the socket to
   * close normally, and leaves the client disconnected with no landmarks, no
   * error and the attempt counter at 0.
   */
  function StepDisconnect(s: StreamState): (t: StreamState)
    ensures t.status == Status.Disconnected && t.landmarks.None? && t.error.None? && t.attempts == 0
    ensures t.ws.None? && t.reconnectTimeout.None?
    ensures t.reconnects == s.reconnects - Handles(s.reconnectTimeout)
    ensures s.ws.Some? && s.ws.value in s.sockets ==>
              t.sockets == s.sockets[s.ws.value := CloseRequested(s.sockets[s.ws.value])]
    ensures s.ws.None? ==> t.sockets == s.sockets
    ensures t.frameCount == s.frameCount && t.nextHandle == s.nextHandle
  {
    var cancelled :=
      if s.reconnectTimeout.Some? then
        s.(reconnects := s.reconnects - {s.reconnectTimeout.value}, reconnectTimeout := None)
      else s;
    var closing :=
      if cancelled.ws.Some? then
        var sock := cancelled.ws.value;
        cancelled.(sockets := if sock in cancelled.sockets
                              then cancelled.sockets[sock := CloseRequested(cancelled.sockets[sock])]
                              else cancelled.sockets,
                   ws := None)
      else cancelled;
    closing.(status := Status.Disconnected, landmarks := None, error := None, attempts := 0)
  }

  /**
   * The reconnect timer `timer` fires at `now`, no earlier than it was due,
   * and runs `connect`. The ref keeps the handle of the timer that fired.
   */
  function StepReconnectFired(s: StreamState, timer: nat, now: int, creationFails: bool): (t: StreamState)
    requires timer in s.reconnects && s.reconnects[timer] <= now
    ensures timer !in t.reconnects && t.reconnects == s.reconnects - {timer}
    ensures t.attempts == s.attempts && t.reconnectTimeout == s.reconnectTimeout
    ensures IsOpen(s) ==> t == s.(reconnects := t.reconnects)
    ensures !IsOpen(s) ==> t.landmarks == s.landmarks && t.frameCount == s.frameCount
    ensures !IsOpen(s) && !creationFails ==>
              && t.status == Status.Connecting && t.error.None? && t.ws == Some(s.nextHandle)
              && t.sockets == s.sockets[s.nextHandle := ReadyState.Connecting]
              && t.nextHandle == s.nextHandle + 1
    ensures !IsOpen(s) && creationFails ==>
              && t.status == Status.Error && t.error == Some(CreateFailedMessage)
              && t.ws == s.ws && t.sockets == s.sockets && t.nextHandle == s.nextHandle
  {
    StepConnect(s.(reconnects := s.reconnects - {timer}), creationFails)
  }

  /** Calling `disconnect` again changes nothing. */
  lemma DisconnectIdempotent(s: StreamState)
    ensures StepDisconnect(StepDisconnect(s)) == StepDisconnect(s)
  {
  }

  // ---------------------------------------------------------------------------
  // Event sequences

  datatype Event =
    | ConnectCalled(creationFails: bool)
    | Opened(sock: nat)
    | MessageArrived(sock: nat, msg: Message)
    | SocketErrored(sock: nat)
    | ClosedWith(sock: nat, code: int, now: int)
    | DisconnectCalled
    | ReconnectFired(timer: nat, now: int, creationFails: bool)

  /**
   * What the runtime guarantees about when an event can happen: handlers
   * belong to a socket it created, a socket opens only while connecting and
   * closes once, and only a scheduled timer fires, not before it is due.
   */
  predicate Enabled(s: StreamState, e: Event) {
    match e
    case ConnectCalled(_) => true
    case Opened(sock) => sock in s.sockets && s.sockets[sock] == ReadyState.Connecting
    case MessageArrived(sock, _) => sock in s.sockets
    case SocketErrored(sock) => sock in s.sockets
    case ClosedWith(sock, _, _) => sock in s.sockets && s.sockets[sock] != ReadyState.Closed
    case DisconnectCalled => true
    case ReconnectFired(timer, now, _) => timer in s.reconnects && s.reconnects[timer] <= now
  }

  function Step(s: StreamState, e: Event): StreamState
    requires Enabled(s, e)
  {
    match e
    case ConnectCalled(fails) => StepConnect(s, fails)
    case Opened(sock) => StepOpen(s, sock)
    case MessageArrived(sock, msg) => StepMessage(s, sock, msg)
    case SocketErrored(sock) => StepError(s, sock)
    case ClosedWith(sock, code, now) => StepClose(s, sock, code, now)
    case DisconnectCalled => StepDisconnect(s)
    case ReconnectFired(timer, now, fails) => StepReconnectFired(s, timer, now, fails)
  }

  predicate ValidTrace(s: StreamState, evs: seq<Event>)
    decreases |evs|
  {
    evs == [] || (Enabled(s, evs[0]) && ValidTrace(Step(s, evs[0]), evs[1..]))
  }

  function Run(s: StreamState, evs: seq<Event>): StreamState
    requires ValidTrace(s, evs)
    decreases |evs|
  {
    if evs == [] then s else Run(Step(s, evs[0]), evs[1..])
  }

  /**
   * Every event keeps the invariant. Only a close schedules a reconnect, and
   * only an open or a disconnect lowers the attempt counter.
   */
  lemma StepPreservesInvariant(s: StreamState, e: Event)
    requires Invariant(s) && Enabled(s, e)
    ensures Invariant(Step(s, e))
    ensures !e.ClosedWith? ==> Step(s, e).reconnects.Keys <= s.reconnects.Keys
    ensures !e.Opened? && !e.DisconnectCalled? ==> Step(s, e).attempts >= s.attempts
  {
  }

  /** Along any sequence of events the attempt counter stays within 0..5. */
  lemma {:induction false} RunPreservesInvariant(s: StreamState, evs: seq<Event>)
    requires Invariant(s) && ValidTrace(s, evs)
    ensures Invariant(Run(s, evs))
    ensures Run(s, evs).attempts <= MaxReconnectAttempts
    decreases |evs|
  {
    if evs != [] {
      StepPreservesInvariant(s, evs[0]);
      RunPreservesInvariant(Step(s, evs[0]), evs[1..]);
    }
  }

  /** The delay after its close at which event `e` schedules a reconnect, if it schedules one. */
  function ScheduledDelay(s: StreamState, e: Event): Option<int>
    requires Enabled(s, e)
  {
    var t := Step(s, e);
    if e.ClosedWith? && s.nextHandle in t.reconnects && s.nextHandle !in s.reconnects
    then Some(t.reconnects[s.nextHandle] - e.now)
    else None
  }

  /** The delays of the reconnects scheduled along a sequence of events, in order. */
  function Delays(s: StreamState, evs: seq<Event>): seq<int>
    requires ValidTrace(s, evs)
    decreases |evs|
  {
    if evs == [] then []
    else
      (match ScheduledDelay(s, evs[0]) case None => [] case Some(d) => [d])
      + Delays(Step(s, evs[0]), evs[1..])
  }

  /**
   * The backoff schedule. Between two successful opens (and with no
   * disconnect), the reconnects scheduled are the next ones of 2000, 4000,
   * ..., 10000 ms after their closes, each counted by the attempt counter,
   * and there is never a sixth.
   */
  lemma {:induction false} LinearBackoff(s: StreamState, evs: seq<Event>)
    requires Invariant(s) && ValidTrace(s, evs)
    requires forall e :: e in evs ==> !e.Opened? && !e.DisconnectCalled?
    ensures Run(s, evs).attempts == s.attempts + |Delays(s, evs)|
    ensures s.attempts + |Delays(s, evs)| <= MaxReconnectAttempts
    ensures forall k :: 0 <= k < |Delays(s, evs)| ==>
              Delays(s, evs)[k] == ReconnectBaseDelay * (s.attempts + k + 1)
    decreases |evs|
  {
    RunPreservesInvariant(s, evs);
    if evs != [] {
      var e, t := evs[0], Step(s, evs[0]);
      assert e in evs;
      assert forall x :: x in evs[1..] ==> x in evs;
      StepPreservesInvariant(s, e);
      LinearBackoff(t, evs[1..]);
      var first := match ScheduledDelay(s, e) case None => [] case Some(d) => [d];
      assert Delays(s, evs) == first + Delays(t, evs[1..]);
      if ScheduledDelay(s, e).Some? {
        assert t.attempts == s.attempts + 1;
        assert first == [ReconnectBaseDelay * (s.attempts + 1)];
      } else {
        assert t.attempts == s.attempts;
      }
    }
  }

  /**
   * `disconnect` does not mark the coming close as deliberate: if the socket
   * it asked to close then reports an abnormal close code, a first reconnect
   * is scheduled 2000 ms later, as after any other failure.
   */
  lemma AbnormalCloseAfterDisconnectReconnects(s: StreamState, code: int, now: int)
    requires Invariant(s) && s.ws.Some? && code != NormalClosure
    ensures var d := StepDisconnect(s);
            && s.ws.value in d.sockets && d.sockets[s.ws.value] != ReadyState.Closed
            && var t := StepClose(d, s.ws.value, code, now);
               t.attempts == 1 && t.reconnects == d.reconnects[d.nextHandle := now + ReconnectBaseDelay]
  {
  }

  /**
   * `disconnect` cancels only the reconnect whose handle the ref holds. When
   * a second `connect` replaced a socket that was still connecting and both
   * then fail, the first close's reconnect outlives the disconnect.
   */
  lemma EarlierReconnectSurvivesDisconnect()
    ensures var evs := [ConnectCalled(false), ConnectCalled(false), ClosedWith(0, 1006, 0),
                        ClosedWith(1, 1006, 0), DisconnectCalled];
            ValidTrace(Initial(), evs) && Run(Initial(), evs).reconnects == map[2 := ReconnectBaseDelay]
  {
  }

  // ---------------------------------------------------------------------------
  // The hook as mutable state

  /** The hook instance: its state cells and refs, updated in place by its callbacks. */
  class HandStreamClient {
    var status: Status
    var error: Option<string>
    var landmarks: Option<seq<Point3>>
    var frameCount: int
    var ws: Option<nat>
    var reconnectTimeout: Option<nat>
    var attempts: nat
    /** The runtime's sockets, by handle. */
    var sockets: map<nat, ReadyState>
    /** The runtime's scheduled reconnects: timer handle to due time. */
    var reconnects: map<nat, int>
    var nextHandle: nat

    function State(): StreamState
      reads this
    {
      StreamState(status, error, landmarks, frameCount, ws, reconnectTimeout, attempts,
                  sockets, reconnects, nextHandle)
    }

    ghost predicate Valid()
      reads this
    {
      Invariant(State())
    }

    constructor ()
      ensures State() == Initial() && Valid()
    {
      status, error, landmarks, frameCount := Status.Disconnected, None, None, 0;
      ws, reconnectTimeout, attempts := None, None, 0;
      sockets, reconnects, nextHandle := map[], map[], 0;
    }

    /** `connect`; `creationFails` says whether constructing the socket throws. */
    method Connect(creationFails: bool)
      requires Valid()
      modifies this
      ensures Valid()
      ensures State() == StepConnect(old(State()), creationFails)
    {
      StepPreservesInvariant(State(), ConnectCalled(creationFails));
      if ws.Some? && sockets[ws.value] == ReadyState.Open {
        return;
      }
      status := Status.Connecting;
      error := None;
      if creationFails {
        status := Status.Error;
        error := Some(CreateFailedMessage);
        return;
      }
      var sock := nextHandle;
      nextHandle := nextHandle + 1;
      sockets := sockets[sock := ReadyState.Connecting];
      ws := Some(sock);
    }

    /** The `onopen` handler of socket `sock`. */
    method HandleOpen(sock: nat)
      requires Valid() && sock in sockets && sockets[sock] == ReadyState.Connecting
      modifies this
      ensures Valid()
      ensures State() == StepOpen(old(State()), sock)
    {
      StepPreservesInvariant(State(), Opened(sock));
      sockets := sockets[sock := ReadyState.Open];
      status := Status.Connected;
      error := None;
      attempts := 0;
    }

    /** The `onmessage` handler of socket `sock`, given the decoded message. */
    method HandleMessage(sock: nat, msg: Message)
      requires Valid() && sock in sockets
      modifies this
      ensures Valid()
      ensures State() == StepMessage(old(State()), sock, msg)
    {
      StepPreservesInvariant(State(), MessageArrived(sock, msg));
      if msg.Unparseable? {
        return;
      }
      if msg.error.Some? && msg.error.value != "" {
        error := msg.error;
        landmarks := None;
        return;
      }
      landmarks := msg.landmarks;
      frameCount := if msg.frameCount.Some? then msg.frameCount.value else 0;
    }

    /** The `onerror` handler of socket `sock`. */
    method HandleError(sock: nat)
      requires Valid() && sock in sockets
      modifies this
      ensures Valid()
      ensures State() == StepError(old(State()), sock)
    {
      StepPreservesInvariant(State(), SocketErrored(sock));
      error := Some(SocketErrorMessage);
      status := Status.Error;
    }

    /** The `onclose` handler of socket `sock`, for close code `code` at time `now`. */
    method HandleClose(sock: nat, code: int, now: int)
      requires Valid() && sock in sockets && sockets[sock] != ReadyState.Closed
      modifies this
      ensures Valid()
      ensures State() == StepClose(old(State()), sock, code, now)
    {
      StepPreservesInvariant(State(), ClosedWith(sock, code, now));
      sockets := sockets[sock := ReadyState.Closed];
      status := Status.Disconnected;
      landmarks := None;
      ws := None;
      if code != NormalClosure && attempts < MaxReconnectAttempts {
        attempts := attempts + 1;
        var timer := nextHandle;
        nextHandle := nextHandle + 1;
        reconnects := reconnects[timer := now + ReconnectBaseDelay * attempts];
        reconnectTimeout := Some(timer);
      } else if attempts >= MaxReconnectAttempts {
        error := Some(MaxAttemptsMessage);
      }
    }

    /** `disconnect`. */
    method Disconnect()
      requires Valid()
      modifies this
      ensures Valid()
      ensures State() == StepDisconnect(old(State()))
    {
      StepPreservesInvariant(State(), DisconnectCalled);
      if reconnectTimeout.Some? {
        reconnects := reconnects - {reconnectTimeout.value};
        reconnectTimeout := None;
      }
      if ws.Some? {
        sockets := sockets[ws.value := CloseRequested(sockets[ws.value])];
        ws := None;
      }
      status := Status.Disconnected;
      landmarks := None;
      error := None;
      attempts := 0;
    }

    /** The reconnect timer `timer` fires at `now` and its callback runs `connect`. */
    method ReconnectTimerFired(timer: nat, now: int, creationFails: bool)
      requires Valid() && timer in reconnects && reconnects[timer] <= now
      modifies this
      ensures Valid()
      ensures State() == StepReconnectFired(old(State()), timer, now, creationFails)
    {
      StepPreservesInvariant(State(), ReconnectFired(timer, now, creationFails));
      reconnects := reconnects - {timer};
      Connect(creationFails);
    }
  }
}

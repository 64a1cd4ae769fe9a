/**
 * The map component's session state as a value, and the effect of each event the component
 * handles on it. This is the reference semantics the InteractiveMap class is proved against,
 * and the level at which properties of whole event sequences are stated.
 *
 * Wall-clock time is an integer number of milliseconds passed in with the event that reads
 * the clock. A heartbeat arms a watchdog that fires WatchdogDelayMs later; the watchdog is
 * an explicit event carrying the time at which it fires.
 */
module SessionState {
  import opened Wrappers
  import opened Globe

  /** The three connection-health states shown by the tracker. */
  datatype ConnState = Connecting | Online | Offline

  /** Delay after a heartbeat at which its watchdog fires. */
  const WatchdogDelayMs: int := 2001

  /** A recorded heartbeat older than this (strictly) makes a firing watchdog go Offline. */
  const StaleAfterMs: int := 2000

  /** The component's state: the clicked path, the connection state, the last heartbeat time. */
  datatype State = State(positions: seq<Point>, connectionState: ConnState, lastRecordedPingAt: Option<int>)

  /** The state a freshly constructed component starts in. */
  const Initial: State := State([], Connecting, None)

  /** Everything that can happen to the component. */
  datatype Event =
    | Connect                          // the transport acknowledged the connection
    | Ping(at: int)                    // a heartbeat arrived; `at` is the clock at receipt
    | Watchdog(at: int)                // a heartbeat's watchdog fires; `at` is the clock then
    | ConnectFailed                    // the transport reported a failed connect
    | Disconnect                       // the transport reported a disconnect
    | RightClick(clicked: Option<Point>) // a right-click, with the point it resolved to, if any
    | ContextMenu(shiftKey: bool)      // a context-menu event, with the state of the shift key
    | Save                             // the Save Path button was pressed

  /**
   * The watchdog's guard reads the recorded heartbeat time as a JavaScript truth value:
   * no recorded time and the time 0 both count as "nothing recorded".
   */
  predicate PingIsTruthy(last: Option<int>) {
    last.Some? && last.value != 0
  }

  /** Whether a watchdog firing at `now` finds the recorded heartbeat stale. */
  predicate IsStale(last: Option<int>, now: int) {
    PingIsTruthy(last) && now - last.value > StaleAfterMs
  }

  /** Whether the Save Path button is enabled (and a save would send the path). */
  predicate ButtonIsEnabled(s: State) {
    |s.positions| > 0 && s.connectionState == Online
  }

  /**
   * The effect of one event. The contract is the frame of each kind of event: only a
   * heartbeat records a time, only path gestures touch the path, path gestures and saving
   * leave the connection alone, a watchdog can only take the session Offline, and the
   * transport events force the state they stand for whatever it was before.
   */
  function Step(s: State, e: Event): (r: State)
    ensures !e.Ping? ==> r.lastRecordedPingAt == s.lastRecordedPingAt
    ensures !(e.RightClick? || e.ContextMenu?) ==> r.positions == s.positions
    ensures e.RightClick? || e.ContextMenu? || e.Save? ==> r.connectionState == s.connectionState
    ensures e.Watchdog? ==> r.connectionState == s.connectionState || r.connectionState == Offline
    ensures e.Connect? || e.Ping? ==> r.connectionState == Online
    ensures e.ConnectFailed? || e.Disconnect? ==> r.connectionState == Offline
  {
    match e
    case Connect => s.(connectionState := Online)
    case Ping(now) => s.(lastRecordedPingAt := Some(now), connectionState := Online)
    case Watchdog(now) =>
      if IsStale(s.lastRecordedPingAt, now) then s.(connectionState := Offline) else s
    case ConnectFailed => s.(connectionState := Offline)
    case Disconnect => s.(connectionState := Offline)
    case RightClick(clicked) =>
      if clicked.Some? then s.(positions := s.positions + [clicked.value]) else s
    case ContextMenu(shiftKey) => if shiftKey then s.(positions := []) else s
    case Save => s
  }

  /** The state after handling `evs` in order, starting from `s`. */
  function Run(s: State, evs: seq<Event>): State
    decreases |evs|
  {
    if evs == [] then s else Step(Run(s, evs[..|evs| - 1]), evs[|evs| - 1])
  }

  /** Tracker background colours. */
  datatype Color = Yellow | Green | Red

  /** The tracker's background colour for each connection state. */
  function TrackerColor(c: ConnState): Color {
    match c
    case Connecting => Yellow
    case Online => Green
    case Offline => Red
  }

  /** The connection state a user reads off the tracker's colour. */
  function StateShown(color: Color): ConnState {
    match color
    case Yellow => Connecting
    case Green => Online
    case Red => Offline
  }

  /** The tracker never misleads: its colour always reads back as the current state. */
  lemma TrackerColorShowsState(c: ConnState)
    ensures StateShown(TrackerColor(c)) == c
  {
  }

  /** The points added by the successful right-clicks among `evs`, in click order. */
  function Clicks(evs: seq<Event>): seq<Point>
    decreases |evs|
  {
    if evs == [] then []
    else
      var last := evs[|evs| - 1];
      Clicks(evs[..|evs| - 1]) + (if last.RightClick? && last.clicked.Some? then [last.clicked.value] else [])
  }

  /** Whether `evs` holds a shift-modified context-menu event (the reset gesture). */
  predicate HasReset(evs: seq<Event>) {
    exists i :: 0 <= i < |evs| && evs[i] == ContextMenu(true)
  }

  /** Running events in two parts is running the first part, then the second. */
  lemma {:induction false} RunAppend(s: State, a: seq<Event>, b: seq<Event>)
    ensures Run(s, a + b) == Run(Run(s, a), b)
    decreases |b|
  {
    if b == [] {
      assert a + b == a;
    } else {
      var b' := b[..|b| - 1];
      assert (a + b)[..|a + b| - 1] == a + b';
      RunAppend(s, a, b');
    }
  }

  /**
   * The path is append-only between resets: with no reset gesture among `evs`, the path
   * afterwards is the path before, followed by the successfully picked points in click order.
   * A failed pick, a save, the context menu without shift and all connection events leave it alone.
   */
  lemma {:induction false} PathAccumulatesClicks(s: State, evs: seq<Event>)
    requires !HasReset(evs)
    ensures Run(s, evs).positions == s.positions + Clicks(evs)
    decreases |evs|
  {
    if evs == [] {
    } else {
      var front := evs[..|evs| - 1];
      assert !HasReset(front) by {
        forall i | 0 <= i < |front| ensures front[i] != ContextMenu(true) {
          assert front[i] == evs[i];
        }
      }
      PathAccumulatesClicks(s, front);
      assert evs[|evs| - 1] != ContextMenu(true);
    }
  }

  /**
   * A reset gesture empties the path whatever it held; afterwards the path is exactly the
   * points clicked since, so earlier points never come back.
   */
  lemma ResetThenClicks(s: State, before: seq<Event>, after: seq<Event>)
    requires !HasReset(after)
    ensures Run(s, before + [ContextMenu(true)] + after).positions == Clicks(after)
  {
    RunAppend(s, before + [ContextMenu(true)], after);
    var r := Run(s, before + [ContextMenu(true)]);
    assert (before + [ContextMenu(true)])[..|before|] == before;
    assert r.positions == [];
    PathAccumulatesClicks(r, after);
  }

  /** Saving never changes the session, whatever its state. */
  lemma SaveChangesNothing(s: State, before: seq<Event>)
    ensures Run(s, before + [Save]) == Run(s, before)
  {
    assert (before + [Save])[..|before|] == before;
  }
}

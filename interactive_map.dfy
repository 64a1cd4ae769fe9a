/**
 * The InteractiveMap component: its state fields, the socket event handlers that drive the
 * connection tracker, the path gestures, saving, and what the render derives from the state.
 * Every handler is proved to have the effect SessionState.Step gives its event, so the
 * properties proved about event sequences hold of the component.
 */
module InteractiveMapComponent {
  import opened Wrappers
  import opened Globe
  import opened SessionState

  /** What the component sends over the socket: the `save-path` event with its points. */
  datatype SocketMessage = SavePathMessage(positions: seq<Point>)

  class InteractiveMap {
    var positions: seq<Point>
    var connectionState: ConnState
    var lastRecordedPingAt: Option<int>
    /** Whether connectToServer has created the socket. */
    var hasSocket: bool

    /** The component's state as a value. */
    function Snapshot(): State
      reads this
    {
      State(positions, connectionState, lastRecordedPingAt)
    }

    /**
     * Only the socket's handlers leave Connecting or record a heartbeat, and they are
     * registered on the socket once it exists.
     */
    ghost predicate Valid()
      reads this
    {
      connectionState != Connecting || lastRecordedPingAt.Some? ==> hasSocket
    }

    constructor ()
      ensures Valid() && !hasSocket
      ensures Snapshot() == Initial
    {
      positions := [];
      connectionState := Connecting;
      lastRecordedPingAt := None;
      hasSocket := false;
    }

    /** Mounting opens the socket; the socket's handlers are registered on it. */
    method ConnectToServer()
      requires Valid()
      modifies this`hasSocket
      ensures Valid() && hasSocket
      ensures Snapshot() == old(Snapshot())
    {
      hasSocket := true;
    }

    method SetConnectionState(c: ConnState)
      requires Valid() && hasSocket
      modifies this`connectionState
      ensures Valid()
      ensures connectionState == c
      ensures positions == old(positions) && lastRecordedPingAt == old(lastRecordedPingAt)
    {
      connectionState := c;
    }

    /** The transport acknowledged the connection. */
    method OnConnect()
      requires Valid() && hasSocket
      modifies this`connectionState
      ensures Valid()
      ensures connectionState == Online
      ensures positions == old(positions) && lastRecordedPingAt == old(lastRecordedPingAt)
      ensures Snapshot() == Step(old(Snapshot()), Connect)
    {
      SetConnectionState(Online);
    }

    /**
     * A heartbeat arrived at time `now`: the time is recorded and the session is Online.
     * The watchdog it arms is the event handled by OnWatchdog WatchdogDelayMs later.
     */
    method OnPing(now: int)
      requires Valid() && hasSocket
      modifies this`lastRecordedPingAt, this`connectionState
      ensures Valid()
      ensures lastRecordedPingAt == Some(now) && connectionState == Online
      ensures positions == old(positions)
      ensures Snapshot() == Step(old(Snapshot()), Ping(now))
    {
      lastRecordedPingAt, connectionState := Some(now), Online;
    }

    /**
     * A heartbeat's watchdog fires at time `now`. It reads the latest recorded heartbeat,
     * not the one that armed it, and sets Offline exactly when that heartbeat is recorded
     * (as a JavaScript truth value) and more than StaleAfterMs old; otherwise nothing changes.
     */
    method OnWatchdog(now: int)
      requires Valid() && hasSocket
      modifies this`connectionState
      ensures Valid()
      ensures connectionState == (if IsStale(old(lastRecordedPingAt), now) then Offline else old(connectionState))
      ensures positions == old(positions) && lastRecordedPingAt == old(lastRecordedPingAt)
      ensures Snapshot() == Step(old(Snapshot()), Watchdog(now))
    {
      if lastRecordedPingAt.Some? && lastRecordedPingAt.value != 0 {
        if now - lastRecordedPingAt.value > StaleAfterMs {
          SetConnectionState(Offline);
        }
      }
    }

    /** The transport reported a failed connect: Offline from any state. */
    method OnConnectFailed()
      requires Valid() && hasSocket
      modifies this`connectionState
      ensures Valid()
      ensures connectionState == Offline
      ensures positions == old(positions) && lastRecordedPingAt == old(lastRecordedPingAt)
      ensures Snapshot() == Step(old(Snapshot()), ConnectFailed)
    {
      SetConnectionState(Offline);
    }

    /** The transport reported a disconnect: Offline from any state. */
    method OnDisconnect()
      requires Valid() && hasSocket
      modifies this`connectionState
      ensures Valid()
      ensures connectionState == Offline
      ensures positions == old(positions) && lastRecordedPingAt == old(lastRecordedPingAt)
      ensures Snapshot() == Step(old(Snapshot()), Disconnect)
    {
      SetConnectionState(Offline);
    }

    /**
     * A right-click: when it resolves on the globe, its point is appended to the path
     * (earlier points unchanged, one point longer); when it misses, nothing changes.
     */
    method OnRightClick(scene: Option<Scene>, picked: Option<Cartographic>)
      requires Valid()
      modifies this`positions
      ensures Valid()
      ensures match CoordinatesFromMovementPosition(scene, picked)
        case Some(c) => positions == old(positions) + [FromRadians(c)]
        case None => positions == old(positions)
      ensures |positions| <= |old(positions)| + 1 && positions[..|old(positions)|] == old(positions)
      ensures connectionState == old(connectionState) && lastRecordedPingAt == old(lastRecordedPingAt)
      ensures Snapshot() == Step(old(Snapshot()), RightClick(ClickedPoint(scene, picked)))
    {
      var coordinates := CoordinatesFromMovementPosition(scene, picked);
      if coordinates.Some? {
        var clickedPosition := FromRadians(coordinates.value);
        positions := positions + [clickedPosition];
      }
    }

    /** Empties the path whatever it held; the connection is left alone. */
    method ResetPolylinePositions()
      requires Valid()
      modifies this`positions
      ensures Valid()
      ensures positions == []
      ensures connectionState == old(connectionState) && lastRecordedPingAt == old(lastRecordedPingAt)
      ensures Snapshot() == Step(old(Snapshot()), ContextMenu(true))
    {
      positions := [];
    }

    /** A context-menu event: with shift it resets the path, without shift it does nothing. */
    method OnContextMenu(shiftKey: bool)
      requires Valid()
      modifies this`positions
      ensures Valid()
      ensures positions == if shiftKey then [] else old(positions)
      ensures connectionState == old(connectionState) && lastRecordedPingAt == old(lastRecordedPingAt)
      ensures Snapshot() == Step(old(Snapshot()), ContextMenu(shiftKey))
    {
      if shiftKey {
        ResetPolylinePositions();
      }
    }

    /** Emits `save-path` with the given points when there is a socket, and nothing otherwise. */
    method SendPositionsOverSocket(ps: seq<Point>) returns (emitted: Option<SocketMessage>)
      ensures emitted.Some? <==> hasSocket
      ensures emitted.Some? ==> emitted.value.positions == ps
    {
      if hasSocket {
        emitted := Some(SavePathMessage(ps));
      } else {
        emitted := None;
      }
    }

    /**
     * The Save Path button: sends exactly one `save-path` message carrying the whole current
     * path exactly when the button is enabled (Online and a non-empty path), and nothing
     * otherwise. It changes no state.
     */
    method SavePath() returns (emitted: Option<SocketMessage>)
      requires Valid()
      ensures emitted.Some? <==> ButtonIsEnabled(Snapshot())
      ensures emitted.Some? ==> emitted.value.positions == positions
    {
      emitted := None;
      if connectionState == Online {
        if |positions| > 0 {
          emitted := SendPositionsOverSocket(positions);
        }
      }
    }
  }

  /**
   * An end-to-end session: after mounting, a connect and a
   * heartbeat, three successful right-clicks and a save send exactly the three points; a
   * disconnect then shows Offline, and a save sends nothing.
   */
  method ClickThreeAndSave(p1: Cartographic, p2: Cartographic, p3: Cartographic, t: int)
    returns (first: Option<SocketMessage>, afterDisconnect: Option<SocketMessage>)
    ensures first == Some(SavePathMessage([FromRadians(p1), FromRadians(p2), FromRadians(p3)]))
    ensures afterDisconnect == None
  {
    var component := new InteractiveMap();
    component.ConnectToServer();
    component.OnConnect();
    component.OnPing(t);
    var scene := Some(Scene(true));
    component.OnRightClick(scene, Some(p1));
    component.OnRightClick(scene, Some(p2));
    component.OnRightClick(scene, Some(p3));
    assert component.positions == [FromRadians(p1), FromRadians(p2), FromRadians(p3)];
    first := component.SavePath();
    component.OnDisconnect();
    assert TrackerColor(component.connectionState) == Red;
    afterDisconnect := component.SavePath();
  }
}

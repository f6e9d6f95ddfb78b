/** The relay of extension/background.js: the `sessions` map from tab to its
    port and WebSocket, and the callbacks that change it or send through it.
    Sockets are named by the order they were created in; `sockets` keeps,
    for each, what its event handlers closed over when `setupWebSocket` made
    it, and its `readyState`. Sent frames, posted port messages, alarms and
    pending grace timers are recorded as they happen. */
module Relay {
  import opened Options
  import opened Strings

  type TabId = int
  type PortId = nat
  type SocketId = nat
  /** A serialized payload, relayed without being looked into. */
  type Json = string

  /** `WebSocket.readyState`: 0, 1 (OPEN), 2 and 3. */
  datatype ReadyState = Connecting | Open | Closing | Closed {
    predicate Live() { this == Connecting || this == Open }
  }

  /** `socket.close()`: a connecting or open socket starts closing. */
  function AfterClose(state: ReadyState): (r: ReadyState)
    ensures !r.Live()
    ensures !state.Live() ==> r == state
  {
    if state.Live() then Closing else state
  }

  /** An entry of `sessions`. */
  datatype Session = Session(port: PortId, socket: SocketId)

  /** One socket: the tab, port and identity its handlers close over, the URL
      it was opened on, and its ready state. */
  datatype SocketInfo = SocketInfo(tab: TabId, port: PortId, url: string, roomId: string, userId: string,
                                   state: ReadyState)

  /** `sockets` once `closeSession(tab)` has closed the socket of the tab's
      session, if it has one. */
  function ClosedSockets(sockets: map<SocketId, SocketInfo>, sessions: map<TabId, Session>, tab: TabId)
    : map<SocketId, SocketInfo>
    requires tab in sessions ==> sessions[tab].socket in sockets
  {
    if tab in sessions then
      var s := sessions[tab].socket;
      sockets[s := sockets[s].(state := AfterClose(sockets[s].state))]
    else sockets
  }

  /** A message from the content script on the port. */
  datatype PortMsg = PortMsg(kind: string, payload: Json, url: string, roomId: string, userId: string)

  /** A frame sent on a socket: `{type, payload}`; the heartbeat has no payload. */
  datatype Frame = Frame(kind: string, payload: Option<Json>)

  /** What the relay posts to a port or broadcasts to the extension. */
  datatype Notice = StatusNotice(status: string) | ConnectedNotice(roomId: string, userId: string) | Relayed(data: Json)
  datatype Post = ToPort(port: PortId, notice: Notice) | ToRuntime(notice: Notice)

  /** The four kinds that are forwarded to the server. */
  predicate IsForwardKind(kind: string)
  {
    kind == "ACTION" || kind == "CHAT" || kind == "REACTION" || kind == "ANALYTICS"
  }

  /** The frame types the four kinds go out as. */
  lemma ForwardedFrameKinds()
    ensures AsciiLower("ACTION") == "action" && AsciiLower("CHAT") == "chat"
    ensures AsciiLower("REACTION") == "reaction" && AsciiLower("ANALYTICS") == "analytics"
  {
    LowersTo("ACTION", "action");
    LowersTo("CHAT", "chat");
    LowersTo("REACTION", "reaction");
    LowersTo("ANALYTICS", "analytics");
  }

  /** `${url}?roomId=${roomId}&userId=${userId}`, without any escaping. */
  function SocketUrl(url: string, roomId: string, userId: string): string
  {
    url + "?roomId=" + roomId + "&userId=" + userId
  }

  const AlarmPrefix: string := "heartbeat-"

  /** `heartbeat-${tabId}` */
  function AlarmName(tab: TabId): (name: string)
    ensures StartsWith(name, AlarmPrefix)
  {
    AlarmPrefix + IntToString(tab)
  }

  /** The alarm listener's reading of a name: it must start with
      `heartbeat-`, and the tab is `parseInt(name.split('-')[1])`. */
  function AlarmTabId(name: string): (r: Option<TabId>)
    ensures r.Some? ==> StartsWith(name, AlarmPrefix)
  {
    if !StartsWith(name, AlarmPrefix) then None
    else
      var parts := Split(name, '-');
      if |parts| < 2 then None else ParseInt(parts[1])
  }

  /** Every alarm name of a non-negative tab id reads back as that id. */
  lemma AlarmNameRoundTrip(tab: nat)
    ensures AlarmTabId(AlarmName(tab)) == Some(tab)
  {
    var digits := NatToDigits(tab);
    assert forall i :: 0 <= i < |digits| ==> digits[i] != '-';
    assert AlarmName(tab) == "heartbeat" + ['-'] + digits;
    SplitAfterPiece("heartbeat", '-', digits);
    SplitNoSeparator(digits, '-');
    ParseIntOfNatToDigits(tab);
  }

  /** No negative id reads back: `heartbeat--n` splits into `heartbeat`,
      an empty piece and the digits, and the empty piece is NaN. */
  lemma AlarmNameOfNegativeId(tab: TabId)
    requires tab < 0
    ensures AlarmTabId(AlarmName(tab)) == None
  {
    var digits := NatToDigits(-tab);
    assert AlarmName(tab) == "heartbeat" + ['-'] + ("-" + digits);
    SplitAfterPiece("heartbeat", '-', "-" + digits);
    assert "-" + digits == [] + ['-'] + digits;
    SplitAfterPiece([], '-', digits);
  }

  class Registry {
    /** `sessions`: tab id to its port and socket. */
    var sessions: map<TabId, Session>
    var sockets: map<SocketId, SocketInfo>
    /** The id the next socket gets. */
    var nextSocket: SocketId
    /** The names of the alarms that exist. */
    var alarms: set<string>
    /** Pending 500 ms grace timers, by tab; none is ever cancelled. */
    var graceTimers: multiset<TabId>
    /** Frames sent, with the socket each went out on. */
    var sent: seq<(SocketId, Frame)>
    /** Port messages and runtime broadcasts, in order. */
    var posted: seq<Post>

    /** Every session names a socket made for that tab and port, and no
        socket id is reused. */
    ghost predicate Valid()
      reads this
    {
      && (forall s :: s in sockets ==> s < nextSocket)
      && (forall t :: t in sessions ==>
            sessions[t].socket in sockets
            && sockets[sessions[t].socket].tab == t
            && sockets[sessions[t].socket].port == sessions[t].port)
    }

    /** The registry tracks every live socket: a connecting or open socket is
        the one its tab's session names. */
    ghost predicate LiveSocketsTracked()
      reads this
    {
      forall s :: s in sockets && sockets[s].state.Live() ==>
        sockets[s].tab in sessions && sessions[sockets[s].tab].socket == s
    }

    /** Whether a frame for `tab` goes out: its session exists and its socket
        is OPEN. */
    predicate CanSend(tab: TabId)
      reads this
    {
      tab in sessions && sessions[tab].socket in sockets && sockets[sessions[tab].socket].state == Open
    }

    constructor ()
      ensures Valid() && LiveSocketsTracked()
      ensures sessions == map[] && sockets == map[] && nextSocket == 0 && alarms == {}
      ensures graceTimers == multiset{} && sent == [] && posted == []
    {
      sessions := map[];
      sockets := map[];
      nextSocket := 0;
      alarms := {};
      graceTimers := multiset{};
      sent := [];
      posted := [];
    }

    /** `closeSession(tabId)`: close and forget the tab's session if there
        is one, and clear its heartbeat alarm either way. */
    method CloseSession(tab: TabId)
      requires Valid()
      modifies this`sessions, this`sockets, this`alarms
      ensures Valid()
      ensures old(LiveSocketsTracked()) ==> LiveSocketsTracked()
      ensures sessions == old(sessions) - {tab} && tab !in sessions
      ensures alarms == old(alarms) - {AlarmName(tab)}
      ensures sockets == ClosedSockets(old(sockets), old(sessions), tab)
    {
      if tab in sessions {
        var s := sessions[tab].socket;
        sockets := sockets[s := sockets[s].(state := AfterClose(sockets[s].state))];
        sessions := sessions - {tab};
      }
      alarms := alarms - {AlarmName(tab)};
    }

    /** The whole effect of `setupWebSocket(tab, port, url, roomId, userId)`
        on the registry. */
    twostate predicate SetUp(tab: TabId, port: PortId, url: string, roomId: string, userId: string,
                             constructible: bool)
      reads this
    {
      && alarms == old(alarms) - {AlarmName(tab)}
      && (tab in old(sessions) ==> old(sessions)[tab].socket in old(sockets))
      && var closed := ClosedSockets(old(sockets), old(sessions), tab);
         if constructible then
           && nextSocket == old(nextSocket) + 1
           && sockets == closed[old(nextSocket) := SocketInfo(tab, port, SocketUrl(url, roomId, userId), roomId, userId, Connecting)]
           && sessions == (old(sessions) - {tab})[tab := Session(port, old(nextSocket))]
           && posted == old(posted)
         else
           && nextSocket == old(nextSocket)
           && sockets == closed
           && sessions == old(sessions) - {tab}
           && posted == old(posted) + [ToPort(port, StatusNotice("error")), ToRuntime(StatusNotice("error"))]
    }

    /** `setupWebSocket`: tear down the tab's session, then open a socket and
        record it as the tab's only session. When `new WebSocket` throws
        (`constructible` false) an error status is posted instead. */
    method SetupWebSocket(tab: TabId, port: PortId, url: string, roomId: string, userId: string,
                          constructible: bool)
      requires Valid()
      modifies this`sessions, this`sockets, this`alarms, this`nextSocket, this`posted
      ensures Valid()
      ensures old(LiveSocketsTracked()) ==> LiveSocketsTracked()
      ensures SetUp(tab, port, url, roomId, userId, constructible)
    {
      CloseSession(tab);
      if !constructible {
        posted := posted + [ToPort(port, StatusNotice("error")), ToRuntime(StatusNotice("error"))];
        return;
      }
      var s := nextSocket;
      nextSocket := nextSocket + 1;
      sockets := sockets[s := SocketInfo(tab, port, SocketUrl(url, roomId, userId), roomId, userId, Connecting)];
      sessions := sessions[tab := Session(port, s)];
    }

    /** The forwarding branch: a frame `{type: lowercase(kind), payload}` goes
        out when the tab's socket is OPEN, and is dropped otherwise. */
    method Forward(tab: TabId, msg: PortMsg)
      modifies this`sent
      ensures sent == old(sent) +
        if CanSend(tab) then [(sessions[tab].socket, Frame(AsciiLower(msg.kind), Some(msg.payload)))] else []
    {
      if tab in sessions && sessions[tab].socket in sockets && sockets[sessions[tab].socket].state == Open {
        sent := sent + [(sessions[tab].socket, Frame(AsciiLower(msg.kind), Some(msg.payload)))];
      }
    }

    /** `port.onMessage`: CONNECT sets up a socket, the four forwarded kinds
        are forwarded, anything else is ignored. */
    method OnPortMessage(tab: TabId, port: PortId, msg: PortMsg, constructible: bool)
      requires Valid()
      modifies this
      ensures Valid()
      ensures old(LiveSocketsTracked()) ==> LiveSocketsTracked()
      ensures graceTimers == old(graceTimers)
      ensures msg.kind == "CONNECT" ==>
        sent == old(sent) && SetUp(tab, port, msg.url, msg.roomId, msg.userId, constructible)
      ensures msg.kind != "CONNECT" ==>
        sessions == old(sessions) && sockets == old(sockets) && alarms == old(alarms)
        && nextSocket == old(nextSocket) && posted == old(posted)
      ensures IsForwardKind(msg.kind) ==>
        sent == old(sent) + (if CanSend(tab) then [(sessions[tab].socket, Frame(AsciiLower(msg.kind), Some(msg.payload)))] else [])
      ensures msg.kind != "CONNECT" && !IsForwardKind(msg.kind) ==> sent == old(sent)
    {
      if msg.kind == "CONNECT" {
        SetupWebSocket(tab, port, msg.url, msg.roomId, msg.userId, constructible);
      } else if IsForwardKind(msg.kind) {
        Forward(tab, msg);
      }
    }

    /** `socket.onopen`: report `connected` and the identity on the port and
        to the extension, and create the tab's heartbeat alarm. */
    method OnSocketOpen(s: SocketId)
      requires Valid() && s in sockets && sockets[s].state == Connecting
      modifies this`sockets, this`posted, this`alarms
      ensures Valid()
      ensures old(LiveSocketsTracked()) ==> LiveSocketsTracked()
      ensures sockets == old(sockets)[s := old(sockets)[s].(state := Open)]
      ensures posted == old(posted) + [ToPort(sockets[s].port, StatusNotice("connected")),
                                       ToPort(sockets[s].port, ConnectedNotice(sockets[s].roomId, sockets[s].userId)),
                                       ToRuntime(StatusNotice("connected"))]
      ensures alarms == old(alarms) + {AlarmName(sockets[s].tab)}
    {
      var info := sockets[s];
      sockets := sockets[s := info.(state := Open)];
      posted := posted + [ToPort(info.port, StatusNotice("connected")),
                          ToPort(info.port, ConnectedNotice(info.roomId, info.userId)),
                          ToRuntime(StatusNotice("connected"))];
      alarms := alarms + {AlarmName(info.tab)};
    }

    /** `socket.onmessage`: a frame that parses (`parsed` is its value) is
        relayed to the socket's port; one that does not is dropped. */
    method OnSocketMessage(s: SocketId, parsed: Option<Json>)
      requires s in sockets && sockets[s].state == Open
      modifies this`posted
      ensures posted == old(posted) + if parsed.Some? then [ToPort(sockets[s].port, Relayed(parsed.value))] else []
    {
      if parsed.Some? {
        posted := posted + [ToPort(sockets[s].port, Relayed(parsed.value))];
      }
    }

    /** `socket.onclose` as written: report `disconnected`, then delete the
        session of the socket's tab and clear its alarm, whichever socket
        that session now holds. */
    method OnSocketClose(s: SocketId)
      requires Valid() && s in sockets && sockets[s].state != Closed
      modifies this`sockets, this`posted, this`sessions, this`alarms
      ensures Valid()
      ensures sockets == old(sockets)[s := old(sockets)[s].(state := Closed)]
      ensures posted == old(posted) + [ToPort(sockets[s].port, StatusNotice("disconnected")),
                                       ToRuntime(StatusNotice("disconnected"))]
      ensures sessions == old(sessions) - {sockets[s].tab}
      ensures alarms == old(alarms) - {AlarmName(sockets[s].tab)}
    {
      var info := sockets[s];
      sockets := sockets[s := info.(state := Closed)];
      posted := posted + [ToPort(info.port, StatusNotice("disconnected")), ToRuntime(StatusNotice("disconnected"))];
      sessions := sessions - {info.tab};
      alarms := alarms - {AlarmName(info.tab)};
    }

    /** `socket.onclose` that only forgets the session and alarm when the
        session still holds this socket. */
    method OnSocketCloseChecked(s: SocketId)
      requires Valid() && s in sockets && sockets[s].state != Closed
      modifies this`sockets, this`posted, this`sessions, this`alarms
      ensures Valid()
      ensures old(LiveSocketsTracked()) ==> LiveSocketsTracked()
      ensures sockets == old(sockets)[s := old(sockets)[s].(state := Closed)]
      ensures posted == old(posted) + [ToPort(sockets[s].port, StatusNotice("disconnected")),
                                       ToRuntime(StatusNotice("disconnected"))]
      ensures var t := sockets[s].tab;
        if t in old(sessions) && old(sessions)[t].socket == s
        then sessions == old(sessions) - {t} && alarms == old(alarms) - {AlarmName(t)}
        else sessions == old(sessions) && alarms == old(alarms)
    {
      var info := sockets[s];
      sockets := sockets[s := info.(state := Closed)];
      posted := posted + [ToPort(info.port, StatusNotice("disconnected")), ToRuntime(StatusNotice("disconnected"))];
      if info.tab in sessions && sessions[info.tab].socket == s {
        sessions := sessions - {info.tab};
        alarms := alarms - {AlarmName(info.tab)};
      }
    }

    /** `socket.onerror`: report `error`; the session stays. */
    method OnSocketError(s: SocketId)
      requires s in sockets
      modifies this`posted
      ensures posted == old(posted) + [ToPort(sockets[s].port, StatusNotice("error")), ToRuntime(StatusNotice("error"))]
    {
      posted := posted + [ToPort(sockets[s].port, StatusNotice("error")), ToRuntime(StatusNotice("error"))];
    }

    /** `port.onDisconnect`: schedule the tab's teardown 500 ms later. */
    method OnPortDisconnect(tab: TabId)
      modifies this`graceTimers
      ensures graceTimers == old(graceTimers) + multiset{tab}
    {
      graceTimers := graceTimers + multiset{tab};
    }

    /** A grace timer of `tab` fires and runs `closeSession(tab)`, whatever
        happened to the tab since it was armed. */
    method GraceElapsed(tab: TabId)
      requires Valid() && tab in graceTimers
      modifies this`graceTimers, this`sessions, this`sockets, this`alarms
      ensures Valid()
      ensures old(LiveSocketsTracked()) ==> LiveSocketsTracked()
      ensures graceTimers == old(graceTimers) - multiset{tab}
      ensures sessions == old(sessions) - {tab} && alarms == old(alarms) - {AlarmName(tab)}
      ensures sockets == ClosedSockets(old(sockets), old(sessions), tab)
    {
      graceTimers := graceTimers - multiset{tab};
      CloseSession(tab);
    }

    /** A port of `tab` connects, cancelling the tab's pending teardowns. */
    method OnPortConnectCancelling(tab: TabId)
      modifies this`graceTimers
      ensures graceTimers == old(graceTimers)[tab := 0] && tab !in graceTimers
    {
      graceTimers := graceTimers[tab := 0];
    }

    /** `chrome.alarms.onAlarm`: a heartbeat name whose tab's socket is OPEN
        sends `{type: 'heartbeat'}` on it; anything else does nothing. */
    method OnAlarm(name: string)
      modifies this`sent
      ensures sent == old(sent) +
        if AlarmTabId(name).Some? && CanSend(AlarmTabId(name).value)
        then [(sessions[AlarmTabId(name).value].socket, Frame("heartbeat", None))] else []
    {
      var tab := AlarmTabId(name);
      if tab.Some? && CanSend(tab.value) {
        sent := sent + [(sessions[tab.value].socket, Frame("heartbeat", None))];
      }
    }
  }

  /** With the registry tracking live sockets, a tab has at most one
      connecting or open socket. */
  lemma AtMostOneLiveSocketPerTab(r: Registry, s1: SocketId, s2: SocketId)
    requires r.LiveSocketsTracked()
    requires s1 in r.sockets && s2 in r.sockets && r.sockets[s1].state.Live() && r.sockets[s2].state.Live()
    requires r.sockets[s1].tab == r.sockets[s2].tab
    ensures s1 == s2
  {
  }

  /** The superseded socket's close event, as written: tab 7 sets up socket
      0, which opens; a second CONNECT closes it and sets up socket 1; when
      socket 0's close event arrives it deletes tab 7's session, which is
      socket 1's. Socket 1 then opens unregistered, and every ACTION and
      heartbeat of tab 7 is dropped. */
  method StaleCloseDropsNewSession() returns (r: Registry)
    ensures fresh(r)
    ensures r.Valid() && !r.LiveSocketsTracked()
    ensures 1 in r.sockets && r.sockets[1].tab == 7 && r.sockets[1].state == Open
    ensures 7 !in r.sessions && !r.CanSend(7) && r.nextSocket == 2
  {
    r := new Registry();
    r.SetupWebSocket(7, 0, "wss://relay", "room", "me", true);
    r.OnSocketOpen(0);
    r.SetupWebSocket(7, 0, "wss://relay", "room", "me", true);
    r.OnSocketClose(0);
    r.OnSocketOpen(1);
  }

  /** The same events with the checked close handler: socket 1 stays the
      session of tab 7, opens, and tab 7 can send. */
  method CheckedCloseKeepsNewSession() returns (r: Registry)
    ensures fresh(r)
    ensures r.Valid() && r.LiveSocketsTracked()
    ensures 7 in r.sessions && r.sessions[7].socket == 1 && r.CanSend(7)
  {
    r := new Registry();
    r.SetupWebSocket(7, 0, "wss://relay", "room", "me", true);
    r.OnSocketOpen(0);
    r.SetupWebSocket(7, 0, "wss://relay", "room", "me", true);
    r.OnSocketCloseChecked(0);
    r.OnSocketOpen(1);
  }

  /** The uncancelled grace timer, as written: tab 7 reloads, its new port
      sends CONNECT within 500 ms and socket 1 opens; then the old port's
      grace timer fires and closes socket 1. */
  method GraceTimerClosesNewSession() returns (r: Registry)
    ensures fresh(r)
    ensures r.Valid()
    ensures 1 in r.sockets && r.sockets[1].tab == 7 && r.sockets[1].state == Closing
    ensures 7 !in r.sessions && !r.CanSend(7)
  {
    r := new Registry();
    r.SetupWebSocket(7, 0, "wss://relay", "room", "me", true);
    r.OnSocketOpen(0);
    r.OnPortDisconnect(7);
    r.OnPortMessage(7, 1, PortMsg("CONNECT", "", "wss://relay", "room", "me"), true);
    r.OnSocketOpen(1);
    r.GraceElapsed(7);
  }

  /** With the reconnecting port cancelling the pending teardown, no grace
      timer of tab 7 is left to fire and socket 1 stays its open session. */
  method CancelledGraceKeepsSession() returns (r: Registry)
    ensures fresh(r)
    ensures r.Valid() && r.LiveSocketsTracked()
    ensures 7 !in r.graceTimers
    ensures 7 in r.sessions && r.sessions[7].socket == 1 && r.CanSend(7)
  {
    r := new Registry();
    r.SetupWebSocket(7, 0, "wss://relay", "room", "me", true);
    r.OnSocketOpen(0);
    r.OnPortDisconnect(7);
    r.OnPortConnectCancelling(7);
    r.OnPortMessage(7, 1, PortMsg("CONNECT", "", "wss://relay", "room", "me"), true);
    r.OnSocketOpen(1);
  }

  /** After the stale close the tab connects once more: its new session's
      setup finds no session to tear down, so socket 1 stays open beside the
      connecting socket 2, and tab 7 has two live sockets. */
  method StaleCloseLeavesTwoLiveSockets() returns (r: Registry)
    ensures r.Valid() && !r.LiveSocketsTracked()
    ensures 1 in r.sockets && r.sockets[1].tab == 7 && r.sockets[1].state.Live()
    ensures 2 in r.sockets && r.sockets[2].tab == 7 && r.sockets[2].state.Live()
    ensures 7 in r.sessions && r.sessions[7].socket == 2
  {
    r := StaleCloseDropsNewSession();
    r.SetupWebSocket(7, 0, "wss://relay", "room", "me", true);
    assert r.sockets[1].state.Live() && r.sessions[r.sockets[1].tab].socket != 1;
  }
}

/** The per-tab playback-sync engine of extension/content.js: the closure
    state of `initContentScript` as the fields of an `Engine`, and its
    callbacks (port messages, video discovery, video events, timer expiry,
    overlay buttons) as methods. Timers become counters of pending expiry
    events, `Date.now()` a `now` parameter, and the port an `outbox` of the
    messages posted to the relay. */
module PlaybackSync {
  import opened Options
  import opened Strings
  import opened SyncPolicy
  import opened CryptoFraming
  import opened ChatLog

  /** The page's `<video>` element: the properties the engine reads or sets. */
  class Video {
    var currentTime: real
    var paused: bool
    var buffered: seq<TimeRange>

    constructor (currentTime: real, paused: bool, buffered: seq<TimeRange>)
      ensures this.currentTime == currentTime && this.paused == paused && this.buffered == buffered
    {
      this.currentTime := currentTime;
      this.paused := paused;
      this.buffered := buffered;
    }
  }

  /** `isTimeBuffered(video, time)`: scans the ranges in order. */
  method IsTimeBuffered(video: Video, t: real) returns (b: bool)
    ensures b == Buffered(video.buffered, t)
  {
    var i := 0;
    while i < |video.buffered|
      invariant 0 <= i <= |video.buffered|
      invariant forall k :: 0 <= k < i ==> !(video.buffered[k].start <= t <= video.buffered[k].end)
    {
      if video.buffered[i].start <= t <= video.buffered[i].end {
        return true;
      }
      i := i + 1;
    }
    return false;
  }

  /** What `applySync(p)` does to the element `v`: drift correction, then
      play/pause reconciliation. */
  twostate predicate VideoSynced(v: Video, p: SyncPayload)
    reads v
  {
    && v.currentTime == SyncedTime(old(v.currentTime), old(v.buffered), p.time)
    && v.paused == SyncedPaused(p, old(v.paused))
    && v.buffered == old(v.buffered)
  }

  /** The part of `applySync` that touches the element. */
  method CorrectVideo(v: Video, p: SyncPayload)
    modifies v
    ensures VideoSynced(v, p)
  {
    var drift := Drift(v.currentTime, p.time);
    if drift > HardSeekDrift {
      v.currentTime := p.time;
    } else if drift > SoftSeekDrift {
      var inRange := IsTimeBuffered(v, p.time);
      if inRange {
        v.currentTime := p.time;
      }
    }
    if WantsPlay(p) && v.paused {
      v.paused := false;
    } else if WantsPause(p) && !v.paused {
      v.paused := true;
    }
  }

  /** Messages arriving on the port, by their `type`. */
  datatype Inbound =
    | Ping
    | Connected(roomId: string, userId: string)
    | Chat(chat: ChatMsg)
    | UserList
    | Reaction(reactionId: string)
    | Status(status: string)
    | Action(payload: SyncPayload)
    | Sync(payload: SyncPayload)
    | Unknown(tag: string)

  /** The `videoService` every ACTION carries. */
  const VideoService: string := "max"

  /** Messages the engine posts on the port. */
  datatype Outbound =
    | ActionOut(action: string, time: real, videoService: string)
    | ChatOut(chat: ChatMsg)
    | AnalyticsOut(duration: int, chats: nat, syncs: nat, reactions: nat, drifts: nat, startTime: int)

  /** The analytics counters. */
  datatype Stats = Stats(startTime: int, chats: nat, syncs: nat, reactions: nat)

  /** `n` copies of one message: one per listener the event reaches. */
  function Copies(o: Outbound, n: nat): (s: seq<Outbound>)
    ensures |s| == n && forall i :: 0 <= i < n ==> s[i] == o
  {
    if n == 0 then [] else Copies(o, n - 1) + [o]
  }

  /** All fields of an engine at once, so that a contract can say which of
      them an operation changes. */
  datatype View = View(
    video: Video?, attached: multiset<Video>, isRemoteUpdate: bool, settleTimers: nat,
    isUnSync: bool, lastServerState: ServerState, pendingSync: Option<SyncPayload>,
    stats: Stats, portOpen: bool, outbox: seq<Outbound>, overlay: bool, chat: seq<Entry>,
    roomId: string, userId: string, key: Option<Key>)

  class Engine {
    /** The cipher, base64 and derivation primitives of the browser. */
    const prims: Primitives
    /** `videoElement`: the element bound last. */
    var video: Video?
    /** Every element `attachListeners` ran on, once per run: listeners are never removed. */
    var attached: multiset<Video>
    /** The echo-suppression latch. */
    var isRemoteUpdate: bool
    /** The 800 ms settle timers that have not fired; none is ever cancelled. */
    var settleTimers: nat
    /** Local-only mode. */
    var isUnSync: bool
    var lastServerState: ServerState
    /** The one-slot buffer for a `sync` heard before any video was bound. */
    var pendingSync: Option<SyncPayload>
    var stats: Stats
    /** `port !== null` */
    var portOpen: bool
    /** Everything posted on the port, oldest first. */
    var outbox: seq<Outbound>
    /** `chatContainerRef !== null`: the overlay exists. */
    var overlay: bool
    /** The rendered chat lines. */
    var chat: seq<Entry>
    var roomId: string
    var userId: string
    /** `cryptoEngine.key` */
    var key: Option<Key>

    ghost function Fields(): View
      reads this
    {
      View(video, attached, isRemoteUpdate, settleTimers, isUnSync, lastServerState, pendingSync,
           stats, portOpen, outbox, overlay, chat, roomId, userId, key)
    }

    /** A bound video is one listeners were attached to and leaves nothing
        pending; the latch is only up while a settle timer is pending;
        rendered ids are unique. */
    ghost predicate Valid()
      reads this
    {
      && (video != null ==> video in attached && pendingSync.None?)
      && (isRemoteUpdate ==> settleTimers > 0)
      && (!overlay ==> chat == [])
      && UniqueIds(chat)
    }

    /** `initContentScript` with the stored room and user and a live port. */
    constructor (prims: Primitives, now: int, roomId: string, userId: string)
      ensures Valid() && this.prims == prims
      ensures Fields() == View(null, multiset{}, false, 0, false, ServerState(0.0, "paused", now), None,
                               Stats(now, 0, 0, 0), true, [], false, [], roomId, userId, None)
    {
      this.prims := prims;
      video := null;
      attached := multiset{};
      isRemoteUpdate := false;
      settleTimers := 0;
      isUnSync := false;
      lastServerState := ServerState(0.0, "paused", now);
      pendingSync := None;
      stats := Stats(now, 0, 0, 0);
      portOpen := true;
      outbox := [];
      overlay := false;
      chat := [];
      this.roomId := roomId;
      this.userId := userId;
      key := None;
    }

    /** The listeners fire for this engine's actions: no remote update is being
        applied, the port is up and the tab is synced. */
    predicate Emitting()
      reads this
    {
      !isRemoteUpdate && portOpen && !isUnSync
    }

    /** The engine fields after `applySync`: one more sync counted and the
        latch raised with one more settle timer. */
    static function AfterApply(w: View): View
    {
      w.(stats := w.stats.(syncs := w.stats.syncs + 1), isRemoteUpdate := true, settleTimers := w.settleTimers + 1)
    }

    /** The effect of an inbound `action` (`isSync` false) or `sync` message. */
    twostate predicate SyncReceived(isSync: bool, p: SyncPayload, now: int)
      reads this, video
    {
      var recorded := old(Fields()).(lastServerState := Recorded(p, now));
      if old(isUnSync) then
        Fields() == recorded && (video != null ==> unchanged(video))
      else if old(video) == null then
        Fields() == recorded.(pendingSync := if isSync then Some(p) else old(pendingSync))
      else
        video == old(video) && Fields() == AfterApply(recorded) && VideoSynced(video, p)
    }

    /** `applySync(payload)`: count it, raise the latch, correct the drift,
        then play or pause. The latch falls when a settle timer fires. */
    method ApplySync(p: SyncPayload)
      requires Valid() && video != null
      modifies this, video
      ensures Valid() && Fields() == AfterApply(old(Fields())) && VideoSynced(video, p)
    {
      stats := stats.(syncs := stats.syncs + 1);
      isRemoteUpdate := true;
      settleTimers := settleTimers + 1;
      CorrectVideo(video, p);
    }

    /** The `action`/`sync` branch of `handlePortMessage`: the room state is
        recorded first, whatever the mode; local-only mode stops there; with
        no video a `sync` replaces the pending one and an `action` is dropped;
        otherwise the payload is applied. */
    method ReceiveSync(isSync: bool, p: SyncPayload, now: int)
      requires Valid()
      modifies this, video
      ensures Valid() && SyncReceived(isSync, p, now)
    {
      lastServerState := Recorded(p, now);
      if isUnSync {
        return;
      }
      if video == null {
        if isSync {
          pendingSync := Some(p);
        }
        return;
      }
      ApplySync(p);
    }

    /** `addChatMessage(m)`. */
    method AddChatMessage(m: ChatMsg)
      requires Valid()
      modifies this
      ensures Valid()
      ensures Fields() == old(Fields()).(chat := if overlay then WithMessage(old(chat), m) else old(chat))
    {
      if !overlay {
        return;
      }
      if Rendered(chat, m.id) {
        return;
      }
      WithMessageKeepsIdsUnique(chat, m);
      chat := chat + [EntryFor(m)];
    }

    /** The effect of an inbound `chat` message. */
    twostate predicate ChatReceived(m: ChatMsg)
      reads this
    {
      var shown := m.(text := Decrypted(prims, old(key), m.text));
      Fields() == old(Fields()).(stats := old(stats).(chats := old(stats.chats) + 1),
                                 chat := if old(overlay) then WithMessage(old(chat), shown) else old(chat))
    }

    /** The `chat` branch: count it, decrypt the text, render it. */
    method ReceiveChat(m: ChatMsg)
      requires Valid()
      modifies this
      ensures Valid() && ChatReceived(m)
    {
      stats := stats.(chats := stats.chats + 1);
      var plain := Decrypt(prims, key, m.text);
      AddChatMessage(m.(text := plain));
    }

    /** The effect of a `CONNECTED` message: remember room and user, take the
        key derived from the room when derivation succeeded, create the
        overlay if it is missing. */
    twostate predicate ConnectedReceived(room: string, user: string, keyDerived: bool)
      reads this
    {
      Fields() == old(Fields()).(roomId := room, userId := user, overlay := true,
                                 key := if keyDerived then Some(Key(room)) else old(key))
    }

    /** The `CONNECTED` branch. */
    method ReceiveConnected(room: string, user: string, keyDerived: bool)
      requires Valid()
      modifies this
      ensures Valid() && ConnectedReceived(room, user, keyDerived)
    {
      roomId, userId := room, user;
      if keyDerived {
        key := Some(Key(room));
      }
      overlay := true;
    }

    /** The `reaction` branch: only the counter (the animation is presentation). */
    method ReceiveReaction()
      requires Valid()
      modifies this
      ensures Valid()
      ensures Fields() == old(Fields()).(stats := old(stats).(reactions := old(stats.reactions) + 1))
    {
      stats := stats.(reactions := stats.reactions + 1);
    }

    /** `handlePortMessage(msg)`. `keyDerived` says whether the PBKDF2
        derivation started by a `CONNECTED` message succeeds. */
    method HandlePortMessage(msg: Inbound, now: int, keyDerived: bool)
      requires Valid()
      modifies this, video
      ensures Valid()
      ensures msg.Ping? || msg.UserList? || msg.Status? || msg.Unknown? ==>
        Fields() == old(Fields()) && (video != null ==> unchanged(video))
      ensures msg.Connected? ==> ConnectedReceived(msg.roomId, msg.userId, keyDerived)
      ensures msg.Chat? ==> ChatReceived(msg.chat)
      ensures msg.Reaction? ==> Fields() == old(Fields()).(stats := old(stats).(reactions := old(stats.reactions) + 1))
      ensures msg.Action? ==> SyncReceived(false, msg.payload, now)
      ensures msg.Sync? ==> SyncReceived(true, msg.payload, now)
    {
      match msg
      case Ping =>
      case Connected(room, user) =>
        ReceiveConnected(room, user, keyDerived);
      case Chat(m) =>
        ReceiveChat(m);
      case UserList =>
      case Reaction(_) =>
        ReceiveReaction();
      case Status(_) =>
      case Action(p) =>
        ReceiveSync(false, p, now);
      case Sync(p) =>
        ReceiveSync(true, p, now);
      case Unknown(_) =>
    }

    /** `checkVideo` with `found` the result of `querySelector('video')`: a
        new element is bound and gets listeners, and a pending `sync` is
        applied to it once and cleared. Local-only mode is not consulted. */
    method CheckVideo(found: Video?)
      requires Valid()
      modifies this, found
      ensures Valid()
      ensures found == null || found == old(video) ==>
        Fields() == old(Fields()) && (found != null ==> unchanged(found))
      ensures found != null && found != old(video) && old(pendingSync).None? ==>
        Fields() == old(Fields()).(video := found, attached := old(attached) + multiset{found})
        && unchanged(found)
      ensures found != null && found != old(video) && old(pendingSync).Some? ==>
        Fields() == AfterApply(old(Fields()).(video := found, attached := old(attached) + multiset{found},
                                              pendingSync := None))
        && VideoSynced(found, old(pendingSync).value)
    {
      if found != null && found != video {
        video := found;
        attached := attached + multiset{found};
        if pendingSync.Some? {
          var p := pendingSync.value;
          pendingSync := None;
          ApplySync(p);
        }
      }
    }

    /** `sendAction(action)` of the listeners attached to `v`. */
    method SendAction(v: Video, action: string)
      modifies this
      ensures Fields() == old(Fields()).(outbox := old(outbox) +
        if isRemoteUpdate || !portOpen || isUnSync then [] else [ActionOut(action, v.currentTime, VideoService)])
    {
      if isRemoteUpdate || !portOpen || isUnSync {
        return;
      }
      outbox := outbox + [ActionOut(action, v.currentTime, VideoService)];
    }

    /** A `play`, `pause` or `seeked` event of `v`: every listener attached
        to `v` runs; each sends `play`, `pause` or `match` with the element's
        position unless local-only, latched or without a port. */
    method OnVideoEvent(v: Video, action: string)
      requires action in {"play", "pause", "match"}
      modifies this
      ensures Fields() == old(Fields()).(outbox := old(outbox) +
        Copies(ActionOut(action, v.currentTime, VideoService), if Emitting() then attached[v] else 0))
    {
      var k := 0;
      while k < attached[v]
        invariant k <= attached[v]
        invariant Fields() == old(Fields()).(outbox := old(outbox) +
          Copies(ActionOut(action, v.currentTime, VideoService), if Emitting() then k else 0))
      {
        if !isUnSync {
          SendAction(v, action);
        }
        k := k + 1;
      }
    }

    /** An 800 ms settle timer fires and lowers the latch, whichever
        `applySync` armed it. */
    method SettleElapsed()
      requires Valid() && settleTimers > 0
      modifies this
      ensures Valid()
      ensures Fields() == old(Fields()).(isRemoteUpdate := false, settleTimers := old(settleTimers) - 1)
    {
      isRemoteUpdate := false;
      settleTimers := settleTimers - 1;
    }

    /** The sync-mode toggle of the overlay. */
    method ToggleUnSync()
      requires Valid()
      modifies this
      ensures Valid()
      ensures Fields() == old(Fields()).(isUnSync := !old(isUnSync))
    {
      isUnSync := !isUnSync;
    }

    /** The port disconnects (`port = null`) or is opened again by the
        reconnect timer. */
    method SetPort(open: bool)
      requires Valid()
      modifies this
      ensures Valid()
      ensures Fields() == old(Fields()).(portOpen := open)
    {
      portOpen := open;
    }

    /** The MATCH button: seek to the extrapolated room position and play or
        pause as the room does. The latch is left as it is, so the element's
        own `seeked` and `play`/`pause` events go back out to the room. */
    method Match(now: int)
      requires Valid()
      modifies video
      ensures Fields() == old(Fields())
      ensures video != null ==>
        video.currentTime == MatchTarget(lastServerState, now)
        && video.paused == (lastServerState.status != "playing")
        && video.buffered == old(video.buffered)
    {
      if video == null {
        return;
      }
      video.currentTime := MatchTarget(lastServerState, now);
      if lastServerState.status == "playing" {
        video.paused := false;
      } else {
        video.paused := true;
      }
    }

    /** MATCH with the latch raised, as `applySync` does, so that the events
        it causes are not sent back. */
    method MatchLatched(now: int)
      requires Valid()
      modifies this, video
      ensures Valid() && (video != null ==> !Emitting())
      ensures Fields() == if old(video) == null then old(Fields())
                          else old(Fields()).(isRemoteUpdate := true, settleTimers := old(settleTimers) + 1)
      ensures video != null ==>
        video.currentTime == MatchTarget(lastServerState, now)
        && video.paused == (lastServerState.status != "playing")
        && video.buffered == old(video.buffered)
    {
      if video == null {
        return;
      }
      isRemoteUpdate := true;
      settleTimers := settleTimers + 1;
      video.currentTime := MatchTarget(lastServerState, now);
      if lastServerState.status == "playing" {
        video.paused := false;
      } else {
        video.paused := true;
      }
    }

    /** `sendAnalytics`, every 10 s and before unload. */
    method SendAnalytics(now: int)
      modifies this
      ensures Fields() == old(Fields()).(outbox := old(outbox) +
        if portOpen then [AnalyticsOut(ElapsedSeconds(now, stats.startTime), stats.chats, stats.syncs,
                                       stats.reactions, 0, stats.startTime)] else [])
    {
      if !portOpen {
        return;
      }
      outbox := outbox + [AnalyticsOut(ElapsedSeconds(now, stats.startTime), stats.chats, stats.syncs,
                                       stats.reactions, 0, stats.startTime)];
    }

    /** The chat form: a non-empty (already trimmed) text is encrypted and
        sent with the send time as its id, then rendered in plain and
        counted. `iv` is the random IV. */
    method SubmitChat(text: string, now: int, iv: seq<byte>)
      requires Valid() && overlay && |iv| == IvLength
      modifies this
      ensures Valid()
      ensures text == "" || !old(portOpen) ==> Fields() == old(Fields())
      ensures text != "" && old(portOpen) ==>
        var sent := ChatMsg(IntToString(now), userId, Encrypted(prims, key, iv, text), now);
        Fields() == old(Fields()).(outbox := old(outbox) + [ChatOut(sent)],
                                   chat := WithMessage(old(chat), sent.(text := text)),
                                   stats := old(stats).(chats := old(stats.chats) + 1))
    {
      if text == "" || !portOpen {
        return;
      }
      var cipherText := Encrypt(prims, key, iv, text);
      var m := ChatMsg(IntToString(now), userId, cipherText, now);
      outbox := outbox + [ChatOut(m)];
      AddChatMessage(m.(text := text));
      stats := stats.(chats := stats.chats + 1);
    }
  }

  /** MATCH as written: a bound, playing video is synced to the room at
      100.0 s; once the latch has fallen, MATCH 5 s later seeks to 105.0 s,
      and the element's `seeked` event sends that position back to the
      room as a `match` action. */
  method MatchEchoes(prims: Primitives, t0: int) returns (e: Engine, v: Video)
    ensures e.outbox == [ActionOut("match", 105.0, VideoService)]
  {
    e := new Engine(prims, t0, "room", "me");
    v := new Video(100.0, false, []);
    e.CheckVideo(v);
    assert e.video == v && e.attached[v] == 1 && e.outbox == [] && e.portOpen && !e.isUnSync;
    e.HandlePortMessage(Sync(SyncPayload(None, 100.0, Some("playing"))), t0, false);
    assert e.video == v && e.attached[v] == 1 && e.outbox == [] && e.portOpen && !e.isUnSync;
    assert e.lastServerState == ServerState(100.0, "playing", t0);
    e.SettleElapsed();
    e.Match(t0 + 5000);
    assert v.currentTime == 105.0;
    assert e.Emitting();
    e.OnVideoEvent(v, "match");
  }

  /** The same events with MATCH raising the latch: nothing is sent. */
  method LatchedMatchIsSilent(prims: Primitives, t0: int) returns (e: Engine, v: Video)
    ensures v.currentTime == 105.0 && !v.paused
    ensures e.outbox == []
  {
    e := new Engine(prims, t0, "room", "me");
    v := new Video(100.0, false, []);
    e.CheckVideo(v);
    assert e.video == v && e.outbox == [];
    e.HandlePortMessage(Sync(SyncPayload(None, 100.0, Some("playing"))), t0, false);
    assert e.video == v && e.outbox == [];
    assert e.lastServerState == ServerState(100.0, "playing", t0);
    e.SettleElapsed();
    e.MatchLatched(t0 + 5000);
    e.OnVideoEvent(v, "match");
  }
}

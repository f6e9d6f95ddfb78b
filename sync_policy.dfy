/** The pure decisions of the playback-sync engine in extension/content.js:
    which status an inbound message records, when drift correction seeks,
    whether the video must be played or paused, where MATCH puts the playhead,
    and the arithmetic of the analytics durations. Media times are exact
    reals; wall-clock instants are integer milliseconds. */
module SyncPolicy {
  import opened Options
  import opened Strings

  /** One interval of `video.buffered`. */
  datatype TimeRange = TimeRange(start: real, end: real)

  /** `isTimeBuffered`: some range holds `t`, both of its ends included. */
  predicate Buffered(ranges: seq<TimeRange>, t: real)
  {
    exists i :: 0 <= i < |ranges| && ranges[i].start <= t <= ranges[i].end
  }

  /** The fields of an inbound `action` or `sync` payload the engine reads;
      an absent field is `None`. */
  datatype SyncPayload = SyncPayload(action: Option<string>, time: real, status: Option<string>)

  /** The room's authoritative state as last heard by this tab. */
  datatype ServerState = ServerState(time: real, status: string, updatedAt: int)

  /** A present, non-empty `status` field (JavaScript truthiness). */
  predicate HasStatus(p: SyncPayload)
  {
    p.status.Some? && p.status.value != ""
  }

  /** `p.status || (p.action === 'play' ? 'playing' : (p.action === 'pause' ? 'paused' : 'stopped'))` */
  function RecordedStatus(p: SyncPayload): (status: string)
    ensures status != ""
    ensures status == "playing" ==> HasStatus(p) || p.action == Some("play")
  {
    if HasStatus(p) then p.status.value
    else if p.action == Some("play") then "playing"
    else if p.action == Some("pause") then "paused"
    else "stopped"
  }

  /** The state recorded for an inbound payload heard at `now`. */
  function Recorded(p: SyncPayload, now: int): (s: ServerState)
    ensures s.time == p.time && s.updatedAt == now
  {
    ServerState(p.time, RecordedStatus(p), now)
  }

  /** The status field wins when present; otherwise the verb decides, and
      every other verb (`match` included) or none records `stopped`. */
  lemma RecordedStatusCases(p: SyncPayload)
    ensures HasStatus(p) ==> RecordedStatus(p) == p.status.value
    ensures !HasStatus(p) ==> RecordedStatus(p) in {"playing", "paused", "stopped"}
    ensures !HasStatus(p) ==> (RecordedStatus(p) == "playing" <==> p.action == Some("play"))
    ensures !HasStatus(p) ==> (RecordedStatus(p) == "paused" <==> p.action == Some("pause"))
    ensures RecordedStatus(SyncPayload(Some("match"), p.time, None)) == "stopped"
  {
  }

  /** Drift thresholds of `applySync`, in seconds. */
  const HardSeekDrift: real := 2.0
  const SoftSeekDrift: real := 0.5

  /** `Math.abs(current - target)` */
  function Drift(current: real, target: real): (d: real)
    ensures d >= 0.0 && (d == current - target || d == target - current)
  {
    if current >= target then current - target else target - current
  }

  /** The seek decision: always beyond the hard threshold, and between the
      two thresholds only when the target is buffered. */
  predicate ShouldSeek(current: real, target: real, targetBuffered: bool)
  {
    Drift(current, target) > HardSeekDrift
    || (Drift(current, target) > SoftSeekDrift && targetBuffered)
  }

  /** The playhead after drift correction. */
  function SyncedTime(current: real, ranges: seq<TimeRange>, target: real): (t: real)
    ensures t == current || t == target
    ensures Drift(t, target) <= Drift(current, target)
  {
    if ShouldSeek(current, target, Buffered(ranges, target)) then target else current
  }

  /** The three drift bands, and what each leaves of the drift. */
  lemma DriftPolicy(current: real, ranges: seq<TimeRange>, target: real)
    ensures Drift(current, target) > 2.0 ==> SyncedTime(current, ranges, target) == target
    ensures 0.5 < Drift(current, target) <= 2.0 ==>
      SyncedTime(current, ranges, target) == (if Buffered(ranges, target) then target else current)
    ensures Drift(current, target) <= 0.5 ==> SyncedTime(current, ranges, target) == current
    ensures Drift(SyncedTime(current, ranges, target), target) <= 2.0
    ensures Buffered(ranges, target) ==> Drift(SyncedTime(current, ranges, target), target) <= 0.5
  {
  }

  /** The worked examples: 10.0 against 10.3 never seeks; against 11.0 it
      seeks only into a buffered target; against 20.0 it always seeks. */
  lemma DriftExamples(ranges: seq<TimeRange>)
    ensures SyncedTime(10.0, ranges, 10.3) == 10.0
    ensures SyncedTime(10.0, [TimeRange(0.0, 15.0)], 11.0) == 11.0
    ensures SyncedTime(10.0, [TimeRange(0.0, 10.5)], 11.0) == 10.0
    ensures SyncedTime(10.0, ranges, 20.0) == 20.0
  {
    assert Buffered([TimeRange(0.0, 15.0)], 11.0) by {
      assert [TimeRange(0.0, 15.0)][0].start <= 11.0 <= [TimeRange(0.0, 15.0)][0].end;
    }
  }

  /** `action === 'play' || status === 'playing'`, on the raw payload. */
  predicate WantsPlay(p: SyncPayload)
  {
    p.action == Some("play") || p.status == Some("playing")
  }

  /** `action === 'pause' || status === 'paused'`, on the raw payload. */
  predicate WantsPause(p: SyncPayload)
  {
    p.action == Some("pause") || p.status == Some("paused")
  }

  /** `video.paused` after the play/pause step of `applySync`. */
  function SyncedPaused(p: SyncPayload, paused: bool): (r: bool)
    ensures r != paused ==> WantsPlay(p) || WantsPause(p)
  {
    if WantsPlay(p) && paused then false
    else if WantsPause(p) && !paused then true
    else paused
  }

  /** The video plays only for a playing target and pauses only for a paused
      one; a one-sided target is reached whatever the start; a payload that
      asks for both (say action `play` with status `paused`) flips the video. */
  lemma PlayPauseReconciliation(p: SyncPayload, paused: bool)
    ensures paused && !SyncedPaused(p, paused) ==> WantsPlay(p)
    ensures !paused && SyncedPaused(p, paused) ==> WantsPause(p)
    ensures WantsPlay(p) && !WantsPause(p) ==> !SyncedPaused(p, paused)
    ensures WantsPause(p) && !WantsPlay(p) ==> SyncedPaused(p, paused)
    ensures !WantsPlay(p) && !WantsPause(p) ==> SyncedPaused(p, paused) == paused
    ensures WantsPlay(p) && WantsPause(p) ==> SyncedPaused(p, paused) == !paused
  {
  }

  /** MATCH: a playing room is extrapolated by the seconds elapsed since the
      last update; any other status leaves the recorded position. */
  function MatchTarget(s: ServerState, now: int): (t: real)
    ensures s.status != "playing" ==> t == s.time
    ensures s.status == "playing" && now >= s.updatedAt ==> t >= s.time
  {
    if s.status == "playing" then s.time + (now - s.updatedAt) as real / 1000.0 else s.time
  }

  /** The target advances exactly with the wall clock while the room plays
      and stands still otherwise. */
  lemma {:induction false} MatchTargetAdvances(s: ServerState, now1: int, now2: int)
    ensures s.status == "playing" ==>
      MatchTarget(s, now2) - MatchTarget(s, now1) == (now2 - now1) as real / 1000.0
    ensures s.status == "playing" ==> MatchTarget(s, s.updatedAt) == s.time
    ensures s.status != "playing" ==> MatchTarget(s, now1) == MatchTarget(s, now2) == s.time
  {
    if s.status == "playing" {
      assert (now2 - s.updatedAt) as real / 1000.0 - (now1 - s.updatedAt) as real / 1000.0
          == ((now2 - s.updatedAt) as real - (now1 - s.updatedAt) as real) / 1000.0;
    }
  }

  /** 100.0 s playing, read 5 s later, gives 105.0 s. */
  lemma MatchExample(t0: int)
    ensures MatchTarget(ServerState(100.0, "playing", t0), t0 + 5000) == 105.0
    ensures MatchTarget(ServerState(100.0, "paused", t0), t0 + 5000) == 100.0
  {
  }

  /** JavaScript's `a % b`, which keeps the sign of `a`. */
  function JsRemainder(a: int, b: int): (r: int)
    requires b > 0
    ensures -b < r < b
  {
    if a >= 0 then a % b else -((-a) % b)
  }

  /** `formatDuration`'s two numbers: `Math.floor(sec / 60)` and `sec % 60`. */
  function DurationParts(sec: int): (parts: (int, int))
    ensures -60 < parts.1 < 60
    ensures sec >= 0 ==> parts.0 >= 0 && parts.1 >= 0
  {
    (sec / 60, JsRemainder(sec, 60))
  }

  /** `formatDuration(sec)`, rendered `${m}m ${s}s`. */
  function FormatDuration(sec: int): (text: string)
    ensures sec >= 0 ==> '-' !in text
  {
    IntToString(DurationParts(sec).0) + "m " + IntToString(DurationParts(sec).1) + "s"
  }

  /** For a non-negative duration the two numbers are minutes and the seconds
      left over. A negative one (a clock set back) breaks that unless it is a
      whole number of minutes: the floored minutes and the truncated seconds
      then add up to a minute less. -5 gives -1 and -5. */
  lemma {:induction false} DurationPartsSplit(sec: int)
    ensures sec >= 0 ==> DurationParts(sec).0 * 60 + DurationParts(sec).1 == sec
    ensures sec >= 0 ==> 0 <= DurationParts(sec).1 < 60 && DurationParts(sec).0 >= 0
    ensures sec < 0 && sec % 60 != 0 ==> DurationParts(sec).0 * 60 + DurationParts(sec).1 == sec - 60
    ensures sec < 0 && sec % 60 == 0 ==> DurationParts(sec) == (sec / 60, 0)
    ensures DurationParts(-5) == (-1, -5)
  {
    if sec < 0 {
      var q, r := sec / 60, sec % 60;
      assert sec == q * 60 + r && 0 <= r < 60;
      var n := -sec;
      assert n == (-q) * 60 - r;
      if r != 0 {
        assert n == (-q - 1) * 60 + (60 - r);
        assert n % 60 == 60 - r;
      } else {
        assert n == (-q) * 60;
        assert n % 60 == 0;
      }
    }
  }

  /** Rendered durations: 125 s is `2m 5s`, a minute is `1m 0s`, and a
      clock set back 5 s shows `-1m -5s`. */
  lemma FormatDurationExamples()
    ensures FormatDuration(125) == "2m 5s"
    ensures FormatDuration(60) == "1m 0s"
    ensures FormatDuration(-5) == "-1m -5s"
  {
  }

  /** `Math.floor((now - startTime) / 1000)`: whole seconds elapsed, rounded down. */
  function ElapsedSeconds(now: int, startTime: int): (d: int)
    ensures d * 1000 <= now - startTime < d * 1000 + 1000
  {
    (now - startTime) / 1000
  }
}

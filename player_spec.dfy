/**
 * The per-track playback transport of the frontend, as values.
 *
 * `Transport` is the whole state of one `Player` object: its own fields and
 * the state of the Tone.js player it drives.  Each operation of the class is
 * a function from the old state to the new one; the class in
 * player_class.dfy is proved to perform exactly these functions.
 *
 * Units follow the source: the position estimate and the time reference are
 * in milliseconds, the loop bounds and the device's duration in seconds.
 */
module PlayerSpec {
  import opened Wrappers

  /** The pitch of the PitchShift node: 0 semitones, or the compensation
    * -12 * log2(rate) for a playback rate.  The logarithm is kept symbolic. */
  datatype Pitch = Neutral | Compensate(rate: real)

  /** A command the transport sends to the audio device. */
  datatype DeviceCommand = Start(offset: real) | Stop

  /** What the transport reads from and writes to the Tone.js player. */
  datatype Device = Device(
    started: bool,
    loop: bool,
    loopStart: real,
    loopEnd: real,
    rate: real,
    reverse: bool,
    volume: real,
    mute: bool,
    duration: real)

  datatype Transport = Transport(
    position: real,
    timeReference: real,
    startBound: real,
    endBound: real,
    intervalId: Option<nat>,
    idsIssued: nat,
    restartOnPause: bool,
    consistentPitch: bool,
    pitch: Pitch,
    observed: bool,
    device: Device)

  /** A Tone.js player before its buffer has loaded. */
  const InitialDevice := Device(false, false, 0.0, 0.0, 1.0, false, 0.0, false, 0.0)

  /** A freshly constructed transport. */
  const Initial := Transport(0.0, 0.0, 0.0, 0.0, None, 0, false, false, Neutral, false, InitialDevice)

  function Ms(seconds: real): real { seconds * 1000.0 }

  /** The bound a stopped transport rests at, in ms: the end bound when
    * reversed, the start bound otherwise. */
  function AnchorMs(s: Transport): real {
    Ms(if s.device.reverse then s.endBound else s.startBound)
  }

  /** Moves a position by `advance` ms in the playing direction; an overshoot
    * past the bound ahead is carried over to the opposite bound once. */
  function Advance(position: real, advance: real, reverse: bool, startMs: real, endMs: real): real {
    if reverse then
      var q := position - advance;
      if q <= startMs then endMs - (startMs - q) else q
    else
      var q := position + advance;
      if q >= endMs then startMs + (q - endMs) else q
  }

  /** The loop window in which a position is stable in the given direction:
    * [start, end) forward and (start, end] in reverse. */
  predicate InWindow(position: real, reverse: bool, startMs: real, endMs: real) {
    if reverse then startMs < position <= endMs else startMs <= position < endMs
  }

  predicate Settled(s: Transport) {
    InWindow(s.position, s.device.reverse, Ms(s.startBound), Ms(s.endBound))
  }

  /** The ms the playhead has moved since the time reference, at `now`. */
  function Elapsed(s: Transport, now: real): real {
    (now - s.timeReference) * s.device.rate
  }

  /** refreshPosition(force) at time `now`. */
  function Refresh(s: Transport, now: real, force: bool): Transport {
    if s.device.started || force then
      s.(position := Advance(s.position, Elapsed(s, now), s.device.reverse, Ms(s.startBound), Ms(s.endBound)),
         timeReference := now)
    else if s.restartOnPause then
      s.(position := AnchorMs(s))
    else
      s
  }

  /** The payloads a refresh that ends in state `s` hands to the position
    * observer: the position in seconds, when an observer is registered. */
  function Emission(s: Transport): seq<real> {
    if s.observed then [s.position / 1000.0] else []
  }

  /** The position playback resumes from when it is switched on. */
  function ResumePosition(s: Transport): real {
    if s.restartOnPause then AnchorMs(s)
    else if s.position == 0.0 && s.device.reverse then Ms(s.endBound)
    else s.position
  }

  /** The offset, in seconds into the buffer, at which togglePlayer(true)
    * starts the device. */
  function StartOffset(s: Transport): real {
    var p := ResumePosition(s);
    if s.device.reverse then s.device.duration - p / 1000.0 else p / 1000.0
  }

  /** togglePlayer(enabled) at time `now`. */
  function Toggle(s: Transport, enabled: bool, now: real): Transport {
    if enabled then
      var armed := if s.intervalId.None? then s.(intervalId := Some(s.idsIssued + 1), idsIssued := s.idsIssued + 1) else s;
      armed.(position := ResumePosition(s), device := s.device.(started := true), timeReference := now)
    else
      s.(intervalId := None, device := s.device.(started := false))
  }

  /** The device command togglePlayer(enabled) issues. */
  function ToggleCommand(s: Transport, enabled: bool): DeviceCommand {
    if enabled then Start(StartOffset(s)) else Stop
  }

  /** The device's onstop notification: the device has stopped, and the
    * handler forces a refresh. */
  function OnStop(s: Transport, now: real): Transport {
    Refresh(s.(device := s.device.(started := false)), now, true)
  }

  /** The buffer's onload notification: the buffer now has a duration, and the
    * handler moves the end bound to it. */
  function OnLoad(s: Transport, duration: real): Transport {
    s.(endBound := duration, device := s.device.(duration := duration))
  }

  function SetReverse(s: Transport, reverse: bool, now: real): Transport {
    Refresh(s.(device := s.device.(reverse := reverse)), now, false)
  }

  function SetPlaybackRate(s: Transport, rate: real, now: real): Transport {
    var p := if s.consistentPitch then Compensate(rate) else s.pitch;
    Refresh(s.(pitch := p, device := s.device.(rate := rate)), now, false)
  }

  function SetPitchConsistentPlayback(s: Transport, on: bool): Transport {
    s.(consistentPitch := on, pitch := if on then Compensate(s.device.rate) else Neutral)
  }

  function SetStartBound(s: Transport, start: real, now: real): Transport {
    Refresh(s.(startBound := start, device := s.device.(loopStart := start)), now, false)
  }

  function SetEndBound(s: Transport, end: real, now: real): Transport {
    Refresh(s.(endBound := end, device := s.device.(loopEnd := end)), now, false)
  }

  function SetBounds(s: Transport, start: real, end: real, now: real): Transport {
    Refresh(s.(startBound := start, endBound := end,
               device := s.device.(loopStart := start, loopEnd := end)), now, false)
  }

  // ---------------------------------------------------------------------
  // Properties of the position estimator
  // ---------------------------------------------------------------------

  /** Forward refresh: the advance is added, and a result at or past the end
    * bound is carried over to the start bound. */
  lemma ForwardRefresh(s: Transport, now: real, force: bool)
    requires s.device.started || force
    requires !s.device.reverse
    ensures var q := s.position + (now - s.timeReference) * s.device.rate;
            Refresh(s, now, force).position
              == if q >= s.endBound * 1000.0 then s.startBound * 1000.0 + (q - s.endBound * 1000.0) else q
    ensures Refresh(s, now, force).timeReference == now
  {
  }

  /** Reverse refresh: the advance is subtracted, and a result at or before
    * the start bound is carried over to the end bound. */
  lemma ReverseRefresh(s: Transport, now: real, force: bool)
    requires s.device.started || force
    requires s.device.reverse
    ensures var q := s.position - (now - s.timeReference) * s.device.rate;
            Refresh(s, now, force).position
              == if q <= s.startBound * 1000.0 then s.endBound * 1000.0 - (s.startBound * 1000.0 - q) else q
    ensures Refresh(s, now, force).timeReference == now
  {
  }

  /** The worked example: bounds [10 s, 20 s], position 19 s, 2 s elapsed at
    * rate 1 forward gives 11 s. */
  lemma WrapExample(s: Transport)
    requires s.device.started && !s.device.reverse && s.device.rate == 1.0
    requires s.startBound == 10.0 && s.endBound == 20.0
    requires s.position == 19000.0
    ensures Refresh(s, s.timeReference + 2000.0, false).position == 11000.0
  {
  }

  /** An advance shorter than the loop window keeps a position inside its
    * window: [start, end) forward, (start, end] in reverse. */
  lemma AdvanceStaysInWindow(position: real, advance: real, reverse: bool, startMs: real, endMs: real)
    requires 0.0 <= advance < endMs - startMs
    requires InWindow(position, reverse, startMs, endMs)
    ensures InWindow(Advance(position, advance, reverse, startMs, endMs), reverse, startMs, endMs)
  {
  }

  lemma RefreshStaysInWindow(s: Transport, now: real, force: bool)
    requires s.device.started || force
    requires Settled(s)
    requires 0.0 <= Elapsed(s, now) < Ms(s.endBound) - Ms(s.startBound)
    ensures Settled(Refresh(s, now, force))
  {
    AdvanceStaysInWindow(s.position, Elapsed(s, now), s.device.reverse, Ms(s.startBound), Ms(s.endBound));
  }

  /** A started or forced refresh re-bases the time reference, so a second
    * one at the same instant leaves a settled state exactly as it is. */
  lemma RefreshTwiceSameInstant(s: Transport, now: real, force: bool)
    requires s.device.started || force
    requires Settled(Refresh(s, now, force))
    ensures Refresh(Refresh(s, now, force), now, force) == Refresh(s, now, force)
  {
    var t := Refresh(s, now, force);
    assert Elapsed(t, now) == 0.0;
  }

  /** A refresh that is neither started nor forced does not move the playhead,
    * except that with restartOnPause it snaps to the anchor bound. */
  lemma IdleRefresh(s: Transport, now: real)
    requires !s.device.started
    ensures Refresh(s, now, false).position == if s.restartOnPause then AnchorMs(s) else s.position
    ensures Refresh(s, now, false) == s.(position := Refresh(s, now, false).position)
  {
  }

  /** After the device has stopped, the passage of time leaves the transport
    * unchanged until playback resumes (without restartOnPause). */
  lemma StoppedTransportHolds(s: Transport, now: real, later: real)
    requires !s.restartOnPause
    ensures Refresh(OnStop(s, now), later, false) == OnStop(s, now)
    ensures !OnStop(s, now).device.started
  {
  }

  /** The onstop handler folds in the time since the last refresh even though
    * the device is no longer started, and does not snap to the anchor even
    * with restartOnPause. */
  lemma OnStopFoldsElapsedTime(s: Transport, now: real)
    ensures OnStop(s, now).position
              == Advance(s.position, Elapsed(s, now), s.device.reverse, Ms(s.startBound), Ms(s.endBound))
    ensures OnStop(s, now).timeReference == now
  {
  }

  // ---------------------------------------------------------------------
  // Properties of togglePlayer
  // ---------------------------------------------------------------------

  /** Switching playback on: the resume point, the device offset, the time
    * reference and the started device. */
  lemma ToggleOn(s: Transport, now: real)
    ensures var t := Toggle(s, true, now);
      && t.position == (if s.restartOnPause then AnchorMs(s)
                        else if s.position == 0.0 && s.device.reverse then s.endBound * 1000.0
                        else s.position)
      && t.device.started && t.timeReference == now
      && t.intervalId.Some?
      && ToggleCommand(s, true) == Start(if s.device.reverse then s.device.duration - t.position / 1000.0
                                          else t.position / 1000.0)
  {
  }

  /** The refresh timer is armed only when none is set: switching playback on
    * a second time keeps the first timer and creates no other. */
  lemma ToggleOnKeepsOneTimer(s: Transport, now1: real, now2: real)
    ensures var t := Toggle(s, true, now1);
            var u := Toggle(t, true, now2);
            u.intervalId == t.intervalId && u.idsIssued == t.idsIssued
    ensures Toggle(s, true, now1).idsIssued == s.idsIssued + (if s.intervalId.None? then 1 else 0)
  {
  }

  /** Switching playback off clears the timer and stops the device; nothing
    * else changes. */
  lemma ToggleOff(s: Transport, now: real)
    ensures Toggle(s, false, now).intervalId == None
    ensures !Toggle(s, false, now).device.started
    ensures Toggle(s, false, now).position == s.position
    ensures Toggle(s, false, now) == s.(intervalId := None, device := s.device.(started := false))
    ensures ToggleCommand(s, false) == Stop
  {
  }

  /** Pause and play again, without restartOnPause: the playhead resumes where
    * the onstop handler left it, and not from the start. */
  lemma PauseThenResume(s: Transport, t0: real, t1: real, t2: real)
    requires !s.restartOnPause
    requires !s.device.reverse
    requires s.device.started && s.timeReference == t0
    ensures var paused := OnStop(Toggle(s, false, t1), t1);
            var resumed := Toggle(paused, true, t2);
            && resumed.position == paused.position
            && (s.position + (t1 - t0) * s.device.rate < s.endBound * 1000.0 ==>
                  resumed.position == s.position + (t1 - t0) * s.device.rate)
  {
  }

  // ---------------------------------------------------------------------
  // Properties of the setters
  // ---------------------------------------------------------------------

  /** The setters store the new rate before refreshing, so the interval since
    * the last refresh is measured at the NEW rate. */
  lemma RateChangeFoldsWithNewRate(s: Transport, rate: real, now: real)
    requires s.device.started && !s.device.reverse
    requires s.position + (now - s.timeReference) * rate < Ms(s.endBound)
    ensures SetPlaybackRate(s, rate, now).position == s.position + (now - s.timeReference) * rate
    ensures SetPlaybackRate(s, rate, now).device.rate == rate
  {
  }

  /** The direction is stored before refreshing, so the pending interval is
    * folded in the NEW direction. */
  lemma ReverseFoldsWithNewDirection(s: Transport, now: real)
    requires s.device.started && !s.device.reverse
    requires s.position - Elapsed(s, now) > Ms(s.startBound)
    ensures SetReverse(s, true, now).position == s.position - (now - s.timeReference) * s.device.rate
    ensures SetReverse(s, true, now).device.reverse
  {
  }

  /** The pitch follows the rate only while pitch-consistent playback is on;
    * switching it off resets the pitch to 0 semitones. */
  lemma PitchFollowsRate(s: Transport, rate: real, now: real)
    ensures SetPlaybackRate(s, rate, now).pitch == if s.consistentPitch then Compensate(rate) else s.pitch
    ensures SetPitchConsistentPlayback(s, true).pitch == Compensate(s.device.rate)
    ensures SetPitchConsistentPlayback(s, false).pitch == Neutral
    ensures SetPitchConsistentPlayback(s, false).position == s.position
  {
  }

  /** setBounds stores both bounds and the device's loop points. */
  lemma SetBoundsStoresBoth(s: Transport, start: real, end: real, now: real)
    ensures var t := SetBounds(s, start, end, now);
            t.startBound == start && t.endBound == end
            && t.device.loopStart == start && t.device.loopEnd == end
  {
  }

  /** Setting the bounds of a stopped transport: with restartOnPause the
    * playhead rests at the new anchor (the new start, or the new end when
    * reversed); without it the playhead stays where it was. */
  lemma SetBoundsWhileStopped(s: Transport, start: real, end: real, now: real)
    requires !s.device.started
    ensures SetBounds(s, start, end, now).position
              == if !s.restartOnPause then s.position
                 else if s.device.reverse then end * 1000.0 else start * 1000.0
  {
  }

  /** onload moves the end bound to the buffer's duration. */
  lemma OnLoadSetsEnd(s: Transport, duration: real)
    ensures OnLoad(s, duration).endBound == duration == OnLoad(s, duration).device.duration
    ensures OnLoad(s, duration).position == s.position
  {
  }
}

/**
 * The `Player` class of the frontend: one per mounted track.  Its fields are
 * the transport's own fields and, in `device`, the state of the Tone.js
 * player it drives.  The clock is a parameter (`now`, in ms), the periodic
 * refresh timer is its interval id, and what the class hands to the outside
 * world is recorded in ghost logs: the observer's payloads, the start/stop
 * commands sent to the device, and the calls of the caller's setIsPlaying.
 *
 * Every method is proved to move `State()` exactly as the function of the
 * same name in PlayerSpec does; the properties are proved there.
 */
module PlayerClass {
  import opened Wrappers
  import opened PlayerSpec

  class Player {
    const name: string

    var position: real
    var timeReference: real
    var startBound: real
    var endBound: real
    var intervalId: Option<nat>
    /** How many interval ids the browser has handed out to this player. */
    var idsIssued: nat
    var restartOnPause: bool
    var consistentPitch: bool
    /** The pitch of the PitchShift node. */
    var pitch: Pitch
    /** Whether a position observer has been registered. */
    var observed: bool
    var device: Device

    /** Payloads handed to the position observer, in order. */
    ghost var updates: seq<real>
    /** Start and stop commands sent to the device, in order. */
    ghost var commands: seq<DeviceCommand>
    /** How many times the onstop handler has reported "not playing". */
    ghost var stopNotices: nat

    ghost function State(): Transport
      reads this
    {
      Transport(position, timeReference, startBound, endBound, intervalId, idsIssued,
                restartOnPause, consistentPitch, pitch, observed, device)
    }

    constructor (name: string)
      ensures this.name == name
      ensures State() == Initial
      ensures updates == [] && commands == [] && stopNotices == 0
    {
      this.name := name;
      position, timeReference := 0.0, 0.0;
      startBound, endBound := 0.0, 0.0;
      intervalId, idsIssued := None, 0;
      restartOnPause, consistentPitch := false, false;
      pitch := Neutral;
      observed := false;
      device := InitialDevice;
      updates, commands, stopNotices := [], [], 0;
    }

    /** The current position estimate, in seconds. */
    function Position(): (seconds: real)
      reads this
      ensures seconds * 1000.0 == position
    {
      position / 1000.0
    }

    function IsStarted(): (started: bool)
      reads this
      ensures started <==> State().device.started
    {
      device.started
    }

    function Duration(): (seconds: real)
      reads this
      ensures seconds == State().device.duration
    {
      device.duration
    }

    function Reverse(): (reverse: bool)
      reads this
      ensures reverse <==> State().device.reverse
    {
      device.reverse
    }

    /** refreshPosition(force), called at time `now`. */
    method RefreshPosition(now: real, force: bool)
      modifies this
      ensures State() == Refresh(old(State()), now, force)
      ensures updates == old(updates) + Emission(State())
      ensures commands == old(commands) && stopNotices == old(stopNotices)
    {
      ghost var was := State();
      if device.started || force {
        var advance := (now - timeReference) * device.rate;
        assert advance == Elapsed(was, now);
        if device.reverse {
          position := position - advance;
          if position <= startBound * 1000.0 {
            position := (endBound * 1000.0) - ((startBound * 1000.0) - position);
          }
        } else {
          position := position + advance;
          if position >= endBound * 1000.0 {
            position := (startBound * 1000.0) + (position - (endBound * 1000.0));
          }
        }
        timeReference := now;
        assert position == Advance(was.position, Elapsed(was, now), device.reverse, Ms(startBound), Ms(endBound));
      } else if !device.started && restartOnPause {
        position := (if device.reverse then endBound else startBound) * 1000.0;
      }
      if observed {
        updates := updates + [position / 1000.0];
      }
    }

    /** togglePlayer(isEnabled), called at time `now`. */
    method TogglePlayer(isEnabled: bool, now: real)
      modifies this
      ensures State() == Toggle(old(State()), isEnabled, now)
      ensures commands == old(commands) + [ToggleCommand(old(State()), isEnabled)]
      ensures updates == old(updates) && stopNotices == old(stopNotices)
    {
      if isEnabled {
        if restartOnPause {
          position := (if device.reverse then endBound else startBound) * 1000.0;
        } else {
          position := if position == 0.0 && device.reverse then endBound * 1000.0 else position;
        }
        var offset := if device.reverse then device.duration - position / 1000.0 else position / 1000.0;
        device := device.(started := true);
        commands := commands + [Start(offset)];
        timeReference := now;
        if intervalId.None? {
          idsIssued := idsIssued + 1;
          intervalId := Some(idsIssued);
        }
      } else {
        intervalId := None;
        device := device.(started := false);
        commands := commands + [Stop];
      }
    }

    /** The device stops (at the end of a non-looping track, or after a stop
      * command) and runs its onstop handler at time `now`. */
    method OnStop(now: real)
      modifies this
      ensures State() == PlayerSpec.OnStop(old(State()), now)
      ensures stopNotices == old(stopNotices) + 1
      ensures updates == old(updates) + Emission(State())
      ensures commands == old(commands)
    {
      device := device.(started := false);
      stopNotices := stopNotices + 1;
      RefreshPosition(now, true);
    }

    /** The buffer finishes decoding, `duration` seconds long. */
    method OnLoad(duration: real)
      modifies this
      ensures State() == PlayerSpec.OnLoad(old(State()), duration)
      ensures updates == old(updates) && commands == old(commands) && stopNotices == old(stopNotices)
    {
      device := device.(duration := duration);
      endBound := device.duration;
    }

    method SetOnPositionUpdate()
      modifies this
      ensures State() == old(State()).(observed := true)
      ensures updates == old(updates) && commands == old(commands) && stopNotices == old(stopNotices)
    {
      observed := true;
    }

    method SetRestartOnPause(restart: bool)
      modifies this
      ensures State() == old(State()).(restartOnPause := restart)
      ensures updates == old(updates) && commands == old(commands) && stopNotices == old(stopNotices)
    {
      restartOnPause := restart;
    }

    method SetLoop(loop: bool)
      modifies this
      ensures State() == old(State()).(device := old(device).(loop := loop))
      ensures updates == old(updates) && commands == old(commands) && stopNotices == old(stopNotices)
    {
      device := device.(loop := loop);
    }

    method SetVolume(volume: real)
      modifies this
      ensures State() == old(State()).(device := old(device).(volume := volume))
      ensures updates == old(updates) && commands == old(commands) && stopNotices == old(stopNotices)
    {
      device := device.(volume := volume);
    }

    method SetMute(mute: bool)
      modifies this
      ensures State() == old(State()).(device := old(device).(mute := mute))
      ensures updates == old(updates) && commands == old(commands) && stopNotices == old(stopNotices)
    {
      device := device.(mute := mute);
    }

    method SetReverse(reverse: bool, now: real)
      modifies this
      ensures State() == PlayerSpec.SetReverse(old(State()), reverse, now)
      ensures updates == old(updates) + Emission(State())
      ensures commands == old(commands) && stopNotices == old(stopNotices)
    {
      device := device.(reverse := reverse);
      RefreshPosition(now, false);
    }

    method SetPlaybackRate(rate: real, now: real)
      modifies this
      ensures State() == PlayerSpec.SetPlaybackRate(old(State()), rate, now)
      ensures updates == old(updates) + Emission(State())
      ensures commands == old(commands) && stopNotices == old(stopNotices)
    {
      if consistentPitch {
        pitch := Compensate(rate);
      }
      device := device.(rate := rate);
      RefreshPosition(now, false);
    }

    method SetPitchConsistentPlayback(on: bool)
      modifies this
      ensures State() == PlayerSpec.SetPitchConsistentPlayback(old(State()), on)
      ensures updates == old(updates) && commands == old(commands) && stopNotices == old(stopNotices)
    {
      consistentPitch := on;
      if on {
        pitch := Compensate(device.rate);
      } else {
        pitch := Neutral;
      }
    }

    method SetStartBound(start: real, now: real)
      modifies this
      ensures State() == PlayerSpec.SetStartBound(old(State()), start, now)
      ensures updates == old(updates) + Emission(State())
      ensures commands == old(commands) && stopNotices == old(stopNotices)
    {
      device := device.(loopStart := start);
      startBound := start;
      RefreshPosition(now, false);
    }

    method SetEndBound(end: real, now: real)
      modifies this
      ensures State() == PlayerSpec.SetEndBound(old(State()), end, now)
      ensures updates == old(updates) + Emission(State())
      ensures commands == old(commands) && stopNotices == old(stopNotices)
    {
      device := device.(loopEnd := end);
      endBound := end;
      RefreshPosition(now, false);
    }

    method SetBounds(start: real, end: real, now: real)
      modifies this
      ensures State() == PlayerSpec.SetBounds(old(State()), start, end, now)
      ensures updates == old(updates) + Emission(State())
      ensures commands == old(commands) && stopNotices == old(stopNotices)
    {
      device := device.(loopStart := start, loopEnd := end);
      startBound := start;
      endBound := end;
      RefreshPosition(now, false);
    }
  }

  /** The pause/resume scenario: load a 30 s track, play for 5 s, pause, play
    * again; the onstop handler reports once, and playback resumes at 5 s. */
  method PauseResumeScenario()
  {
    var p := new Player("track");
    p.OnLoad(30.0);
    p.SetOnPositionUpdate();
    p.TogglePlayer(true, 1000.0);
    assert p.commands == [Start(0.0)];
    p.TogglePlayer(false, 6000.0);
    p.OnStop(6000.0);
    assert p.stopNotices == 1;
    assert p.Position() == 5.0;
    assert p.updates == [5.0];
    p.TogglePlayer(true, 9000.0);
    assert p.commands == [Start(0.0), Stop, Start(5.0)];
    assert p.intervalId == Some(2);
  }
}

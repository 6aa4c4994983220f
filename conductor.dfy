/**
 The script's module-wide state and its event handlers (script.js, lines 1-2,
 90-97, 100-124, 126-195, 197-320 and 366-389): the audio element's volume and
 playback rate, the playing flag, the idle hint, the pointer trail, the last
 pointer sample, and the registry of pending idle timers. The host's event
 loop is the caller: it delivers pointer moves, fires due timers, and runs
 animation frames, passing in the clock readings.
 */
module Conductor {
  import opened Options
  import opened Rate
  import opened Trail
  import opened Motion

  /** Delay of the idle timer armed by every pointer move, in milliseconds. */
  const IdleDelay: int := 100
  const ActiveVolume: real := 1.0
  const IdleVolume: real := 0.1

  class Session {
    /** The start button has run: the audio element and the trail canvas exist. */
    var started: bool
    /** The audio element's `volume` and `playbackRate`. */
    var volume: real
    var playbackRate: real
    var isPlaying: bool
    /** Whether the idle hint message is shown (opacity 1). */
    var hintVisible: bool
    var points: seq<Point>
    var lastMouseX: real
    var lastMouseY: real
    var lastMouseTime: int
    /** `window.mouseX` / `window.mouseY`, unset until the first move. */
    var mouse: Option<Vec>
    /** The handle the last `setTimeout` returned, unset before the first move. */
    var mouseTimer: Option<nat>
    /** The host's pending timers that this script armed: handle to due time. */
    var timers: map<nat, int>
    /** The handle the host gives the next timer. */
    var nextHandle: nat

    ghost predicate Valid()
      reads this
    {
      && (mouseTimer.None? ==> timers == map[])
      && (mouseTimer.Some? ==> mouseTimer.value < nextHandle && timers.Keys <= {mouseTimer.value})
      && (!started ==> points == [] && timers == map[] && !isPlaying)
      && (isPlaying ==> MinRate <= playbackRate <= MaxRate)
    }

    /** The script's state when it is loaded at time `loadTime`. */
    constructor (loadTime: int)
      ensures Valid()
      ensures !started && !isPlaying && !hintVisible
      ensures points == [] && mouse == None && mouseTimer == None && timers == map[] && nextHandle == 0
      ensures lastMouseX == 0.0 && lastMouseY == 0.0 && lastMouseTime == loadTime
    {
      started := false;
      volume, playbackRate := 0.0, 1.0;
      isPlaying, hintVisible := false, false;
      points := [];
      lastMouseX, lastMouseY, lastMouseTime := 0.0, 0.0, loadTime;
      mouse, mouseTimer := None, None;
      timers, nextHandle := map[], 0;
    }

    /** The start button: a fresh audio element (volume 1, rate 1) and the canvas. */
    method Start()
      requires Valid()
      modifies this`started, this`volume, this`playbackRate
      ensures Valid()
      ensures started && volume == 1.0 && playbackRate == 1.0
    {
      started, volume, playbackRate := true, 1.0, 1.0;
    }

    /** The first `play()` promise resolves and mutes the audio. */
    method PlayStarted()
      requires Valid() && started
      modifies this`volume
      ensures Valid() && volume == 0.0
    {
      volume := 0.0;
    }

    /** The audio's `playbackRate` when the audio exists, else 1. */
    function SpeedFactor(): (sf: real)
      reads this
      ensures Valid() && isPlaying ==> MinRate <= sf <= MaxRate
    {
      if started then playbackRate else 1.0
    }

    /**
     The mousemove handler. `distance` is the Euclidean distance from the last sample,
     `now` the clock reading that becomes `lastMouseTime`, and `stamp` the separate clock
     reading stored in the new trail point. Returns whether this move starts `animate`.
     */
    method Move(clientX: real, clientY: real, distance: real, now: int, stamp: int) returns (startsAnimation: bool)
      requires Valid()
      requires started ==> lastMouseTime < now
      requires started ==> IsDistance(distance, Vec(lastMouseX, lastMouseY), Vec(clientX, clientY))
      modifies this
      ensures Valid()
      ensures !old(started) ==> !startsAnimation && unchanged(this)
      ensures old(started) ==> started && isPlaying && startsAnimation == !old(isPlaying)
      ensures old(started) ==> playbackRate == PlaybackRate(Speed(distance, now - old(lastMouseTime)))
      ensures old(started) ==> lastMouseX == clientX && lastMouseY == clientY && lastMouseTime == now
      ensures old(started) ==> mouse == Some(Vec(clientX, clientY))
      ensures old(started) ==> points == old(points) + [Point(clientX, clientY, stamp)]
      ensures old(started) ==> volume == ActiveVolume && !hintVisible
      ensures old(started) ==> mouseTimer == Some(old(nextHandle)) && nextHandle == old(nextHandle) + 1
      ensures old(started) ==> timers == map[old(nextHandle) := now + IdleDelay]
    {
      if !started {
        return false;
      }
      var deltaTime := now - lastMouseTime;
      var speed := Speed(distance, deltaTime);
      playbackRate := PlaybackRate(speed);
      lastMouseX, lastMouseY, lastMouseTime := clientX, clientY, now;
      mouse := Some(Vec(clientX, clientY));
      points := points + [Point(clientX, clientY, stamp)];
      hintVisible := false;
      volume := ActiveVolume;
      startsAnimation := !isPlaying;
      isPlaying := true;
      RestartIdleTimer(now);
    }

    /** `clearTimeout(mouseTimer)` followed by `mouseTimer = setTimeout(..., 100)` at time `now`:
        afterwards the new timer is the only pending one. The arming time is taken to be the
        handler's `currentTime`; on the first move the script arms the timer only after the
        first `animate` frame, so the real timer may fall due slightly later. */
    method RestartIdleTimer(now: int)
      requires Valid() && started
      modifies this`timers, this`mouseTimer, this`nextHandle
      ensures Valid()
      ensures mouseTimer == Some(old(nextHandle)) && nextHandle == old(nextHandle) + 1
      ensures timers == map[old(nextHandle) := now + IdleDelay]
    {
      if mouseTimer.Some? {
        timers := timers - {mouseTimer.value};
      }
      assert timers.Keys == {};
      var handle := nextHandle;
      nextHandle := nextHandle + 1;
      timers := timers[handle := now + IdleDelay];
      mouseTimer := Some(handle);
    }

    /**
     The host's timer queue at time `now` runs timer `handle`. Only a pending timer whose
     delay has elapsed runs; its callback lowers the volume and shows the hint.
     */
    method FireTimer(handle: nat, now: int) returns (fired: bool)
      requires Valid()
      modifies this`timers, this`volume, this`hintVisible
      ensures Valid()
      ensures fired == (handle in old(timers) && old(timers)[handle] <= now)
      ensures fired ==> volume == IdleVolume && hintVisible && timers == old(timers) - {handle}
      ensures !fired ==> volume == old(volume) && hintVisible == old(hintVisible) && timers == old(timers)
    {
      fired := handle in timers && timers[handle] <= now;
      if fired {
        timers := timers - {handle};
        volume := IdleVolume;
        hintVisible := true;
      }
    }

    /** `points = points.filter(...)`: keeps the points younger than the lifetime. */
    method PurgeExpired(now: int)
      requires Valid()
      modifies this`points
      ensures Valid()
      ensures points == Purged(old(points), now)
    {
      var kept: seq<Point> := [];
      var i := 0;
      while i < |points|
        invariant 0 <= i <= |points|
        invariant kept == Purged(points[..i], now)
      {
        assert points[..i + 1][..i] == points[..i];
        if Live(points[i], now) {
          kept := kept + [points[i]];
        }
        i := i + 1;
      }
      assert points[..|points|] == points;
      points := kept;
    }

    /** `drawPoints` at time `now`: purges the trail, then returns the alpha each remaining
        point is painted with, in trail order. Without a canvas it does nothing. */
    method DrawPoints(now: int) returns (alphas: seq<real>)
      requires Valid()
      modifies this`points
      ensures Valid()
      ensures !started ==> points == old(points) && alphas == []
      ensures started ==> points == Purged(old(points), now) && |alphas| == |points|
      ensures started ==> forall i :: 0 <= i < |points| ==>
        alphas[i] == Opacity(points[i], now) && 0.0 < alphas[i] &&
        (points[i].timestamp <= now ==> alphas[i] <= 1.0)
    {
      if !started {
        return [];
      }
      PurgeExpired(now);
      alphas := [];
      var i := 0;
      while i < |points|
        invariant 0 <= i <= |points|
        invariant |alphas| == i
        invariant forall k :: 0 <= k < i ==> alphas[k] == Opacity(points[k], now)
      {
        alphas := alphas + [Opacity(points[i], now)];
        i := i + 1;
      }
    }

    /**
     One `animate` frame over the instruments, in index order. `inputs[i]` carries the
     candidate position, collision displacement and pointer distance of instrument `i`;
     `drawNow` is the clock reading `drawPoints` takes. Returns the trail alphas.
     */
    method Animate(instruments: array<Instrument>, inputs: seq<FrameInput>, width: real, height: real, drawNow: int)
      returns (alphas: seq<real>)
      requires Valid()
      requires |inputs| == instruments.Length
      requires MouseActive(mouse) ==>
        forall i :: 0 <= i < |inputs| ==> IsDistance(inputs[i].distance, Pushed(inputs[i], width, height), mouse.value)
      modifies this`points, instruments
      ensures Valid()
      ensures !isPlaying ==> points == old(points) && alphas == [] && instruments[..] == old(instruments[..])
      ensures isPlaying ==> forall i :: 0 <= i < instruments.Length ==>
        instruments[i] == Step(old(instruments[i]), Target(inputs[i], mouse, width, height, SpeedFactor()), SpeedFactor())
      ensures isPlaying ==> points == Purged(old(points), drawNow) && |alphas| == |points|
      ensures isPlaying ==> forall i :: 0 <= i < |points| ==> alphas[i] == Opacity(points[i], drawNow)
    {
      if !isPlaying {
        return [];
      }
      var speedFactor := SpeedFactor();
      var i := 0;
      while i < instruments.Length
        invariant 0 <= i <= instruments.Length
        invariant forall k :: 0 <= k < i ==>
          instruments[k] == Step(old(instruments[k]), Target(inputs[k], mouse, width, height, speedFactor), speedFactor)
        invariant forall k :: i <= k < instruments.Length ==> instruments[k] == old(instruments[k])
        invariant points == old(points)
      {
        instruments[i] := Step(instruments[i], Target(inputs[i], mouse, width, height, speedFactor), speedFactor);
        i := i + 1;
      }
      alphas := DrawPoints(drawNow);
    }
  }

  /**
   A move at t = 100 arms timer 0; a second move at t = 150 cancels it and arms timer 1.
   Timer 0 then cannot fire, timer 1 cannot fire before t = 250, and fires at t = 250.
   */
  method IdleScenario() returns (staleFired: bool, earlyFired: bool, volumeWhileActive: real,
                                 dueFired: bool, volumeWhenIdle: real, hintWhenIdle: bool)
    ensures !staleFired && !earlyFired && volumeWhileActive == ActiveVolume
    ensures dueFired && volumeWhenIdle == IdleVolume && hintWhenIdle
  {
    var s := new Session(0);
    s.Start();
    var starts := s.Move(300.0, 400.0, 500.0, 100, 100);
    assert starts;
    starts := s.Move(303.0, 404.0, 5.0, 150, 151);
    assert !starts;
    staleFired := s.FireTimer(0, 200);
    earlyFired := s.FireTimer(1, 249);
    volumeWhileActive := s.volume;
    dueFired := s.FireTimer(1, 250);
    volumeWhenIdle, hintWhenIdle := s.volume, s.hintVisible;
  }

  /** Before the start button nothing reacts to the pointer. */
  method NoAudioScenario() returns (starts: bool, trailLength: nat)
    ensures !starts && trailLength == 0
  {
    var s := new Session(0);
    starts := s.Move(10.0, 10.0, 0.0, 5, 5);
    trailLength := |s.points|;
  }
}

// application/AnimationHandler and the two kinds of animation it drives:
// the PathTransition that carries a body along its orbit and the
// AnimationTimer that spins a body about its axis.
module Animation {
  import opened Wrappers
  import opened Geometry
  import opened SceneGraph

  /**
   * The play head JavaFX sets for jumpTo(t) and playFrom(t) on an
   * animation that cycles indefinitely: a time before the start is
   * clamped to the start, and there is no end to clamp to.
   */
  function ClampedTime(t: real): (c: real)
    ensures c >= 0.0
    ensures t >= 0.0 ==> c == t
    ensures t < 0.0 ==> c == 0.0
  {
    if t < 0.0 then 0.0 else t
  }

  /**
   * A PathTransition with linear interpolation and an indefinite cycle
   * count: it moves `node` along `path`, one cycle lasting `duration`
   * seconds. Only its play head and its running flag are modelled.
   */
  class Transition {
    const node: SmartPane
    const path: Ellipse
    const duration: real
    var currentTime: real
    var playing: bool

    constructor(node: SmartPane, path: Ellipse, duration: real)
      ensures this.node == node && this.path == path && this.duration == duration
      ensures currentTime == 0.0 && !playing
    {
      this.node := node;
      this.path := path;
      this.duration := duration;
      currentTime := 0.0;
      playing := false;
    }

    /** jumpTo(t): moves the play head, clamped to the start, running or not. */
    method JumpTo(t: real)
      modifies this
      ensures currentTime == ClampedTime(t) && playing == old(playing)
    {
      currentTime := ClampedTime(t);
    }

    /** play(): runs on from the current play head. */
    method Play()
      modifies this
      ensures playing && currentTime == old(currentTime)
    {
      playing := true;
    }

    /** playFrom(t): jumps to t, clamped to the start, and runs. */
    method PlayFrom(t: real)
      modifies this
      ensures playing && currentTime == ClampedTime(t)
    {
      currentTime := ClampedTime(t);
      playing := true;
    }

    /**
     * stop(): a running transition halts and rewinds its play head to the
     * start; on a stopped one it does nothing.
     */
    method Stop()
      modifies this
      ensures !playing
      ensures old(playing) ==> currentTime == 0.0
      ensures !old(playing) ==> currentTime == old(currentTime)
    {
      if playing {
        currentTime := 0.0;
      }
      playing := false;
    }
  }

  /**
   * The AnimationTimer made by prepareAnimation: on every frame it turns
   * `node` by angleForOneNano degrees per nanosecond elapsed since the
   * previous frame (timestamps are Java longs, in nanoseconds).
   * `angleForOneNano` is None for a body whose rotation period is zero,
   * where the Java rate is not a finite number.
   */
  class RotationTimer {
    const node: Shape3D
    const angleForOneNano: Option<real>
    var oldTimeStamp: int
    var active: bool

    constructor(node: Shape3D, angleForOneNano: Option<real>)
      ensures this.node == node && this.angleForOneNano == angleForOneNano
      ensures oldTimeStamp == 0 && !active
    {
      this.node := node;
      this.angleForOneNano := angleForOneNano;
      oldTimeStamp := 0;
      active := false;
    }

    method Start()
      modifies this
      ensures active && oldTimeStamp == old(oldTimeStamp)
    {
      active := true;
    }

    method Stop()
      modifies this
      ensures !active && oldTimeStamp == old(oldTimeStamp)
    {
      active := false;
    }

    /** handle(now): one frame of the rotation, as AfterTicks describes it. */
    method Handle(now: int)
      modifies this, node
      ensures active == old(active) && oldTimeStamp == now
      ensures angleForOneNano.Some? ==>
        (node.rotate, oldTimeStamp) == AfterTicks(old(node.rotate), old(oldTimeStamp), angleForOneNano.value, [now])
      ensures angleForOneNano.None? ==> node.rotate == old(node.rotate)
    {
      var passed := now - oldTimeStamp;
      oldTimeStamp := now;
      assert [now][1..] == [];
      if angleForOneNano.Some? {
        var angle := Turn(angleForOneNano.value, passed);
        node.rotate := node.rotate + angle;
      }
    }
  }

  /**
   * The rotate property and the remembered timestamp after the frames
   * `nows`, starting from `rotate` and `stamp`, at `rate` degrees per
   * nanosecond.
   */
  function AfterTicks(rotate: real, stamp: int, rate: real, nows: seq<int>): (after: (real, int))
    ensures nows != [] ==> after.1 == nows[|nows| - 1]
    ensures nows == [] ==> after == (rotate, stamp)
    decreases |nows|
  {
    if nows == [] then (rotate, stamp)
    else AfterTicks(rotate + Turn(rate, nows[0] - stamp), nows[0], rate, nows[1..])
  }

  /** The angle turned in `passed` nanoseconds at `rate` degrees per nanosecond. */
  function Turn(rate: real, passed: int): (angle: real)
  {
    rate * passed as real
  }

  /**
   * The increments telescope: after any non-empty run of frames the body
   * has turned by rate times the time from the first remembered stamp to
   * the last frame, however the frames were spaced.
   */
  lemma {:induction false} AfterTicksTelescopes(rotate: real, stamp: int, rate: real, nows: seq<int>)
    requires nows != []
    ensures AfterTicks(rotate, stamp, rate, nows)
         == (rotate + Turn(rate, nows[|nows| - 1] - stamp), nows[|nows| - 1])
    decreases |nows|
  {
    var next := rotate + Turn(rate, nows[0] - stamp);
    if |nows| > 1 {
      AfterTicksTelescopes(next, nows[0], rate, nows[1..]);
      assert nows[1..][|nows[1..]| - 1] == nows[|nows| - 1];
      assert Turn(rate, nows[0] - stamp) + Turn(rate, nows[|nows| - 1] - nows[0])
          == Turn(rate, nows[|nows| - 1] - stamp);
    } else {
      assert nows[1..] == [];
    }
  }

  predicate Distinct<T(==)>(s: seq<T>)
  {
    forall i, j :: 0 <= i < j < |s| ==> s[i] != s[j]
  }

  /**
   * application/AnimationHandler: the registry of every orbital
   * transition and rotation timer, with the play head saved for each
   * transition when the animation was last paused.
   */
  class AnimationHandler {
    var transitions: seq<Transition>
    var runningTimer: seq<real>
    var animationTimers: seq<RotationTimer>
    var running: bool

    /** One saved play head per transition; no transition or timer twice. */
    ghost predicate Valid()
      reads this
    {
      |runningTimer| == |transitions| && Distinct(transitions) && Distinct(animationTimers)
    }

    constructor()
      ensures Valid()
      ensures transitions == [] && runningTimer == [] && animationTimers == [] && !running
    {
      transitions := [];
      runningTimer := [];
      animationTimers := [];
      running := false;
    }

    /**
     * addTransition: a null or already registered transition is ignored;
     * otherwise it is appended together with its current play head.
     */
    method AddTransition(t: Transition?)
      requires Valid()
      modifies this
      ensures Valid()
      ensures animationTimers == old(animationTimers) && running == old(running)
      ensures t == null || t in old(transitions) ==>
        transitions == old(transitions) && runningTimer == old(runningTimer)
      ensures t != null && t !in old(transitions) ==>
        transitions == old(transitions) + [t] && runningTimer == old(runningTimer) + [t.currentTime]
    {
      if t == null {
        return;
      }
      var i := 0;
      while i < |transitions|
        invariant 0 <= i <= |transitions|
        invariant forall j :: 0 <= j < i ==> transitions[j] != t
      {
        if t == transitions[i] {
          return;
        }
        i := i + 1;
      }
      transitions := transitions + [t];
      runningTimer := runningTimer + [t.currentTime];
    }

    /** addAnimationTimer: a null or already registered timer is ignored; otherwise appended. */
    method AddAnimationTimer(a: RotationTimer?)
      requires Valid()
      modifies this
      ensures Valid()
      ensures transitions == old(transitions) && runningTimer == old(runningTimer) && running == old(running)
      ensures a == null || a in old(animationTimers) ==> animationTimers == old(animationTimers)
      ensures a != null && a !in old(animationTimers) ==> animationTimers == old(animationTimers) + [a]
    {
      if a == null {
        return;
      }
      var i := 0;
      while i < |animationTimers|
        invariant 0 <= i <= |animationTimers|
        invariant forall j :: 0 <= j < i ==> animationTimers[j] != a
      {
        if a == animationTimers[i] {
          return;
        }
        i := i + 1;
      }
      animationTimers := animationTimers + [a];
    }

    /** Every timer started, each keeping its remembered timestamp. */
    method StartTimers()
      requires Valid()
      modifies animationTimers
      ensures forall k :: 0 <= k < |animationTimers| ==>
        animationTimers[k].active && animationTimers[k].oldTimeStamp == old(animationTimers[k].oldTimeStamp)
    {
      var i := 0;
      while i < |animationTimers|
        invariant 0 <= i <= |animationTimers|
        invariant forall k :: 0 <= k < i ==>
          animationTimers[k].active && animationTimers[k].oldTimeStamp == old(animationTimers[k].oldTimeStamp)
        invariant forall k :: i <= k < |animationTimers| ==>
          animationTimers[k].oldTimeStamp == old(animationTimers[k].oldTimeStamp)
      {
        animationTimers[i].Start();
        i := i + 1;
      }
    }

    /** Every timer stopped, each keeping its remembered timestamp. */
    method StopTimers()
      requires Valid()
      modifies animationTimers
      ensures forall k :: 0 <= k < |animationTimers| ==>
        !animationTimers[k].active && animationTimers[k].oldTimeStamp == old(animationTimers[k].oldTimeStamp)
    {
      var i := 0;
      while i < |animationTimers|
        invariant 0 <= i <= |animationTimers|
        invariant forall k :: 0 <= k < i ==>
          !animationTimers[k].active && animationTimers[k].oldTimeStamp == old(animationTimers[k].oldTimeStamp)
        invariant forall k :: i <= k < |animationTimers| ==>
          animationTimers[k].oldTimeStamp == old(animationTimers[k].oldTimeStamp)
      {
        animationTimers[i].Stop();
        i := i + 1;
      }
    }

    /** start: every transition runs on from its play head, every timer runs. */
    method Start()
      requires Valid()
      modifies this, transitions, animationTimers
      ensures Valid() && running
      ensures transitions == old(transitions) && runningTimer == old(runningTimer)
      ensures animationTimers == old(animationTimers)
      ensures forall k :: 0 <= k < |transitions| ==>
        transitions[k].playing && transitions[k].currentTime == old(transitions[k].currentTime)
      ensures forall k :: 0 <= k < |animationTimers| ==> animationTimers[k].active
      ensures forall k :: 0 <= k < |animationTimers| ==>
        animationTimers[k].oldTimeStamp == old(animationTimers[k].oldTimeStamp)
    {
      var i := 0;
      while i < |transitions|
        invariant 0 <= i <= |transitions|
        invariant transitions == old(transitions) && runningTimer == old(runningTimer)
        invariant animationTimers == old(animationTimers)
        invariant forall k :: 0 <= k < |animationTimers| ==>
          animationTimers[k].oldTimeStamp == old(animationTimers[k].oldTimeStamp)
        invariant forall k :: 0 <= k < i ==>
          transitions[k].playing && transitions[k].currentTime == old(transitions[k].currentTime)
        invariant forall k :: i <= k < |transitions| ==>
          transitions[k].currentTime == old(transitions[k].currentTime)
      {
        transitions[i].Play();
        i := i + 1;
      }
      StartTimers();
      running := true;
    }

    /**
     * unpause: every transition runs again from the play head saved for
     * it, every timer runs.
     */
    method Unpause()
      requires Valid()
      modifies this, transitions, animationTimers
      ensures Valid() && running
      ensures transitions == old(transitions) && runningTimer == old(runningTimer)
      ensures animationTimers == old(animationTimers)
      ensures forall k :: 0 <= k < |transitions| ==>
        transitions[k].playing && transitions[k].currentTime == ClampedTime(runningTimer[k])
      ensures forall k :: 0 <= k < |animationTimers| ==> animationTimers[k].active
      ensures forall k :: 0 <= k < |animationTimers| ==>
        animationTimers[k].oldTimeStamp == old(animationTimers[k].oldTimeStamp)
    {
      var i := 0;
      while i < |transitions|
        invariant 0 <= i <= |transitions|
        invariant transitions == old(transitions) && runningTimer == old(runningTimer)
        invariant animationTimers == old(animationTimers)
        invariant forall k :: 0 <= k < |animationTimers| ==>
          animationTimers[k].oldTimeStamp == old(animationTimers[k].oldTimeStamp)
        invariant forall k :: 0 <= k < i ==>
          transitions[k].playing && transitions[k].currentTime == ClampedTime(runningTimer[k])
      {
        var from := runningTimer[i];
        transitions[i].PlayFrom(from);
        i := i + 1;
      }
      StartTimers();
      running := true;
    }

    /**
     * pause: the play head of every transition is saved in its slot and
     * the transition stopped (rewound if it was running); every timer stops.
     */
    method Pause()
      requires Valid()
      modifies this, transitions, animationTimers
      ensures Valid() && !running
      ensures transitions == old(transitions) && animationTimers == old(animationTimers)
      ensures forall k :: 0 <= k < |transitions| ==>
        runningTimer[k] == old(transitions[k].currentTime)
      ensures forall k :: 0 <= k < |transitions| ==> !transitions[k].playing
      ensures forall k :: 0 <= k < |transitions| ==>
        transitions[k].currentTime == if old(transitions[k].playing) then 0.0 else old(transitions[k].currentTime)
      ensures forall k :: 0 <= k < |animationTimers| ==> !animationTimers[k].active
      ensures forall k :: 0 <= k < |animationTimers| ==>
        animationTimers[k].oldTimeStamp == old(animationTimers[k].oldTimeStamp)
    {
      var i := 0;
      while i < |transitions|
        invariant 0 <= i <= |transitions|
        invariant transitions == old(transitions) && animationTimers == old(animationTimers)
        invariant forall k :: 0 <= k < |animationTimers| ==>
          animationTimers[k].oldTimeStamp == old(animationTimers[k].oldTimeStamp)
        invariant |runningTimer| == |transitions|
        invariant forall k :: 0 <= k < i ==>
          runningTimer[k] == old(transitions[k].currentTime)
        invariant forall k :: 0 <= k < i ==> !transitions[k].playing
        invariant forall k :: 0 <= k < i ==>
          transitions[k].currentTime == if old(transitions[k].playing) then 0.0 else old(transitions[k].currentTime)
        invariant forall k :: i <= k < |transitions| ==>
          transitions[k].playing == old(transitions[k].playing) &&
          transitions[k].currentTime == old(transitions[k].currentTime)
      {
        var from := transitions[i].currentTime;
        runningTimer := runningTimer[i := from];
        transitions[i].Stop();
        i := i + 1;
      }
      StopTimers();
      running := false;
    }

    /**
     * stop: every transition halts (a running one rewinds), every timer
     * stops; saved play heads are kept.
     */
    method Stop()
      requires Valid()
      modifies this, transitions, animationTimers
      ensures Valid() && !running
      ensures transitions == old(transitions) && runningTimer == old(runningTimer)
      ensures animationTimers == old(animationTimers)
      ensures forall k :: 0 <= k < |transitions| ==> !transitions[k].playing
      ensures forall k :: 0 <= k < |transitions| ==>
        transitions[k].currentTime == if old(transitions[k].playing) then 0.0 else old(transitions[k].currentTime)
      ensures forall k :: 0 <= k < |animationTimers| ==> !animationTimers[k].active
      ensures forall k :: 0 <= k < |animationTimers| ==>
        animationTimers[k].oldTimeStamp == old(animationTimers[k].oldTimeStamp)
    {
      var i := 0;
      while i < |transitions|
        invariant 0 <= i <= |transitions|
        invariant transitions == old(transitions) && runningTimer == old(runningTimer)
        invariant animationTimers == old(animationTimers)
        invariant forall k :: 0 <= k < |animationTimers| ==>
          animationTimers[k].oldTimeStamp == old(animationTimers[k].oldTimeStamp)
        invariant forall k :: 0 <= k < i ==> !transitions[k].playing
        invariant forall k :: 0 <= k < i ==>
          transitions[k].currentTime == if old(transitions[k].playing) then 0.0 else old(transitions[k].currentTime)
        invariant forall k :: i <= k < |transitions| ==>
          transitions[k].playing == old(transitions[k].playing) &&
          transitions[k].currentTime == old(transitions[k].currentTime)
      {
        transitions[i].Stop();
        i := i + 1;
      }
      StopTimers();
      running := false;
    }

    /** toggle: pause when running, unpause otherwise. */
    method Toggle()
      requires Valid()
      modifies this, transitions, animationTimers
      ensures Valid() && running == !old(running)
      ensures transitions == old(transitions) && animationTimers == old(animationTimers)
      ensures old(running) ==> forall k :: 0 <= k < |transitions| ==>
        runningTimer[k] == old(transitions[k].currentTime)
      ensures old(running) ==> forall k :: 0 <= k < |transitions| ==> !transitions[k].playing
      ensures old(running) ==> forall k :: 0 <= k < |transitions| ==>
        transitions[k].currentTime == if old(transitions[k].playing) then 0.0 else old(transitions[k].currentTime)
      ensures old(running) ==> forall k :: 0 <= k < |animationTimers| ==> !animationTimers[k].active
      ensures !old(running) ==> runningTimer == old(runningTimer)
      ensures !old(running) ==> forall k :: 0 <= k < |transitions| ==>
        transitions[k].playing && transitions[k].currentTime == ClampedTime(runningTimer[k])
      ensures !old(running) ==> forall k :: 0 <= k < |animationTimers| ==> animationTimers[k].active
      ensures forall k :: 0 <= k < |animationTimers| ==>
        animationTimers[k].oldTimeStamp == old(animationTimers[k].oldTimeStamp)
    {
      if running {
        Pause();
      } else {
        Unpause();
      }
    }
  }
}

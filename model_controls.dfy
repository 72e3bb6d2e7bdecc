/** The registry of animation mixers and actions created while a model loads,
    with the pause, play and clear operations the animation button and the
    loader use. Mixers and actions are objects whose flags are set in place. */
module AnimationRegistry {

  /** A clip action, reduced to the state the registry changes. */
  class AnimationAction {
    var paused: bool
    var running: bool
    var time: real
    var timeScale: real
    var weight: real

    constructor ()
      ensures !paused && !running && time == 0.0 && timeScale == 1.0 && weight == 1.0
    {
      paused := false;
      running := false;
      time := 0.0;
      timeScale := 1.0;
      weight := 1.0;
    }
  }

  /** A mixer, reduced to whether its actions were stopped and whether its
      root's bindings are still cached. */
  class AnimationMixer {
    var stopped: bool
    var rootCached: bool

    constructor ()
      ensures !stopped && rootCached
    {
      stopped := false;
      rootCached := true;
    }
  }

  class ModelControls {
    var mixers: seq<AnimationMixer>
    var actions: seq<AnimationAction>

    /** The two lists are pushed and reset together. */
    predicate Valid()
      reads this
    {
      |mixers| == |actions|
    }

    constructor ()
      ensures Valid() && mixers == [] && actions == []
    {
      mixers := [];
      actions := [];
    }

    /** `addMixer(mixer, action)`: both are appended, or nothing happens
        when either is missing. */
    method AddMixer(mixer: AnimationMixer?, action: AnimationAction?)
      requires Valid()
      modifies this
      ensures Valid()
      ensures mixer != null && action != null ==> mixers == old(mixers) + [mixer] && actions == old(actions) + [action]
      ensures mixer == null || action == null ==> mixers == old(mixers) && actions == old(actions)
    {
      if mixer != null && action != null {
        mixers := mixers + [mixer];
        actions := actions + [action];
      }
    }

    /** `clearMixers()`: every action is stopped (which also rewinds it),
        every mixer stops all its actions and drops its cached root, and
        both lists are emptied. */
    method ClearMixers()
      requires Valid()
      modifies this, set a | a in actions, set m | m in mixers
      ensures Valid() && mixers == [] && actions == []
      ensures forall a :: a in old(actions) ==> !a.running && !a.paused && a.time == 0.0
      ensures forall a :: a in old(actions) ==> a.timeScale == old(a.timeScale) && a.weight == old(a.weight)
      ensures forall m :: m in old(mixers) ==> m.stopped && !m.rootCached
    {
      var i := 0;
      while i < |actions|
        invariant 0 <= i <= |actions|
        invariant mixers == old(mixers) && actions == old(actions)
        invariant forall a :: a in actions[..i] ==> !a.running && !a.paused && a.time == 0.0
        invariant forall a :: a in actions ==> a.timeScale == old(a.timeScale) && a.weight == old(a.weight)
        invariant forall m :: m in mixers ==> m.stopped == old(m.stopped) && m.rootCached == old(m.rootCached)
      {
        var action := actions[i];
        action.running := false;
        action.paused := false;
        action.time := 0.0;
        assert actions[..i + 1] == actions[..i] + [action];
        i := i + 1;
      }
      assert actions[..i] == actions;
      var j := 0;
      while j < |mixers|
        invariant 0 <= j <= |mixers|
        invariant mixers == old(mixers) && actions == old(actions)
        invariant forall a :: a in actions ==> !a.running && !a.paused && a.time == 0.0
        invariant forall a :: a in actions ==> a.timeScale == old(a.timeScale) && a.weight == old(a.weight)
        invariant forall m :: m in mixers[..j] ==> m.stopped && !m.rootCached
      {
        var mixer := mixers[j];
        mixer.stopped := true;
        mixer.rootCached := false;
        assert mixers[..j + 1] == mixers[..j] + [mixer];
        j := j + 1;
      }
      assert mixers[..j] == mixers;
      mixers := [];
      actions := [];
    }

    /** `pauseAllAnimations()`: every action paused with time scale 0. */
    method PauseAllAnimations()
      requires Valid()
      modifies set a | a in actions
      ensures Valid()
      ensures forall a :: a in actions ==> a.paused && a.timeScale == 0.0
      ensures forall a :: a in actions ==> a.running == old(a.running) && a.time == old(a.time) && a.weight == old(a.weight)
    {
      var i := 0;
      while i < |actions|
        invariant 0 <= i <= |actions|
        invariant forall a :: a in actions[..i] ==> a.paused && a.timeScale == 0.0
        invariant forall a :: a in actions ==> a.running == old(a.running) && a.time == old(a.time) && a.weight == old(a.weight)
      {
        var action := actions[i];
        action.paused := true;
        action.timeScale := 0.0;
        assert actions[..i + 1] == actions[..i] + [action];
        i := i + 1;
      }
      assert actions[..i] == actions;
    }

    /** `playAllAnimations()`: every action unpaused, rewound, at time scale
        1 and weight 1, and running. */
    method PlayAllAnimations()
      requires Valid()
      modifies set a | a in actions
      ensures Valid()
      ensures forall a :: a in actions ==>
                !a.paused && a.running && a.time == 0.0 && a.timeScale == 1.0 && a.weight == 1.0
    {
      var i := 0;
      while i < |actions|
        invariant 0 <= i <= |actions|
        invariant forall a :: a in actions[..i] ==>
                    !a.paused && a.running && a.time == 0.0 && a.timeScale == 1.0 && a.weight == 1.0
      {
        var action := actions[i];
        action.paused := false;
        action.time := 0.0;
        action.timeScale := 1.0;
        action.weight := 1.0;
        action.running := true;
        assert actions[..i + 1] == actions[..i] + [action];
        i := i + 1;
      }
      assert actions[..i] == actions;
    }

    /** `getCurrentMixers()` */
    method GetCurrentMixers() returns (r: seq<AnimationMixer>)
      ensures r == mixers
    {
      r := mixers;
    }

    /** `getCurrentActions()` */
    method GetCurrentActions() returns (r: seq<AnimationAction>)
      ensures r == actions
    {
      r := actions;
    }
  }
}

/**
 * `useOrbitControls`: orbit controls attached to the provider's camera and canvas, rebuilt when
 * either changes (only the latest request counts), ticking every frame while they need it.
 */
module UseOrbitControls {
  import opened Common
  import opened Engine

  datatype ControlsOptions = ControlsOptions(
    target: Option<Vec3>, enableDamping: Option<bool>, dampingFactor: Option<real>,
    autoRotate: Option<bool>, autoRotateSpeed: Option<real>, enableZoom: Option<bool>,
    minDistance: Option<real>, maxDistance: Option<real>, enablePan: Option<bool>)

  const NoOptions := ControlsOptions(None, None, None, None, None, None, None, None, None)

  /** The settings of an orbit-controls instance that the options write. */
  datatype ControlsSettings = ControlsSettings(
    target: Vec3, enableDamping: bool, dampingFactor: real,
    autoRotate: bool, autoRotateSpeed: real, enableZoom: bool,
    minDistance: real, maxDistance: Option<real>, enablePan: bool)

  /** The engine's defaults for new controls (`maxDistance` None: unbounded). */
  const Defaults := ControlsSettings(Vec3(0.0, 0.0, 0.0), false, 0.05, false, 2.0, true, 0.0, None, true)

  /** The settings after `next` is applied: each given option replaces its setting. */
  function Configure(next: ControlsOptions, s: ControlsSettings): ControlsSettings
  {
    ControlsSettings(
      OrDefault(next.target, s.target), OrDefault(next.enableDamping, s.enableDamping),
      OrDefault(next.dampingFactor, s.dampingFactor), OrDefault(next.autoRotate, s.autoRotate),
      OrDefault(next.autoRotateSpeed, s.autoRotateSpeed), OrDefault(next.enableZoom, s.enableZoom),
      OrDefault(next.minDistance, s.minDistance),
      if next.maxDistance.Some? then next.maxDistance else s.maxDistance,
      OrDefault(next.enablePan, s.enablePan))
  }

  /** Re-applying the same options leaves the settings as they are; absent options keep them. */
  lemma ConfigureIdempotent(next: ControlsOptions, s: ControlsSettings)
    ensures Configure(next, Configure(next, s)) == Configure(next, s)
    ensures Configure(NoOptions, s) == s
  {
  }

  /** The engine's orbit controls: their settings, how often `update` ran, and disposal. */
  class Controls {
    const camera: Camera
    const canvas: nat
    var target: Vec3
    var enableDamping: bool
    var dampingFactor: real
    var autoRotate: bool
    var autoRotateSpeed: real
    var enableZoom: bool
    var minDistance: real
    var maxDistance: Option<real>  // None: unbounded
    var enablePan: bool
    var updates: nat
    var disposeCount: nat

    /** The engine's defaults. */
    constructor (cam: Camera, el: nat)
      ensures camera == cam && canvas == el && target == Vec3(0.0, 0.0, 0.0)
      ensures !enableDamping && dampingFactor == 0.05 && !autoRotate && autoRotateSpeed == 2.0
      ensures enableZoom && minDistance == 0.0 && maxDistance == None && enablePan
      ensures updates == 0 && disposeCount == 0
      ensures Settings() == Defaults
    {
      camera := cam;
      canvas := el;
      target := Vec3(0.0, 0.0, 0.0);
      enableDamping := false;
      dampingFactor := 0.05;
      autoRotate := false;
      autoRotateSpeed := 2.0;
      enableZoom := true;
      minDistance := 0.0;
      maxDistance := None;
      enablePan := true;
      updates := 0;
      disposeCount := 0;
    }

    function Settings(): ControlsSettings
      reads this
    {
      ControlsSettings(target, enableDamping, dampingFactor, autoRotate, autoRotateSpeed,
                       enableZoom, minDistance, maxDistance, enablePan)
    }

    method Update()
      modifies this`updates
      ensures updates == old(updates) + 1
    {
      updates := updates + 1;
    }

    method Dispose()
      modifies this`disposeCount
      ensures disposeCount == old(disposeCount) + 1
    {
      disposeCount := disposeCount + 1;
    }
  }

  function ControlsSet(c: Controls?): set<Controls>
  {
    if c == null then {} else {c}
  }

  /** Controls need a per-frame `update` while damping or auto-rotation is on. */
  predicate NeedsTicking(c: Controls?)
    reads ControlsSet(c)
  {
    c != null && (c.enableDamping || c.autoRotate)
  }

  /** `applyOptions` on one instance: given settings are taken, the rest kept, then one `update`. */
  method ApplyToInstance(instance: Controls, next: ControlsOptions)
    modifies instance
    ensures instance.target == OrDefault(next.target, old(instance.target))
    ensures instance.enableDamping == OrDefault(next.enableDamping, old(instance.enableDamping))
    ensures instance.dampingFactor == OrDefault(next.dampingFactor, old(instance.dampingFactor))
    ensures instance.autoRotate == OrDefault(next.autoRotate, old(instance.autoRotate))
    ensures instance.autoRotateSpeed == OrDefault(next.autoRotateSpeed, old(instance.autoRotateSpeed))
    ensures instance.enableZoom == OrDefault(next.enableZoom, old(instance.enableZoom))
    ensures instance.enablePan == OrDefault(next.enablePan, old(instance.enablePan))
    ensures instance.minDistance == OrDefault(next.minDistance, old(instance.minDistance))
    ensures instance.maxDistance == (if next.maxDistance.Some? then next.maxDistance else old(instance.maxDistance))
    ensures instance.Settings() == Configure(next, old(instance.Settings()))
    ensures instance.updates == old(instance.updates) + 1
    ensures instance.disposeCount == old(instance.disposeCount)
  {
    var after := Configure(next, instance.Settings());
    instance.target, instance.enableDamping, instance.dampingFactor := after.target, after.enableDamping, after.dampingFactor;
    instance.autoRotate, instance.autoRotateSpeed := after.autoRotate, after.autoRotateSpeed;
    instance.enableZoom, instance.enablePan := after.enableZoom, after.enablePan;
    instance.minDistance, instance.maxDistance := after.minDistance, after.maxDistance;
    instance.Update();
  }

  class ControlsState {
    var controls: Controls?
    var subscribed: bool     // whether a frame callback (`frameStop`) is registered
    var subscriptions: nat   // how many frame callbacks were registered in all
    var watching: bool       // whether the camera/renderer watcher is still running
    var disposed: bool
    var lastToken: nat

    /** A frame callback is registered exactly while the controls need ticking. */
    ghost predicate Valid()
      reads this, ControlsSet(controls)
    {
      subscribed == NeedsTicking(controls)
    }

    constructor ()
      ensures controls == null && !subscribed && subscriptions == 0 && watching && !disposed && lastToken == 0
      ensures Valid()
    {
      controls := null;
      subscribed := false;
      subscriptions := 0;
      watching := true;
      disposed := false;
      lastToken := 0;
    }

    /** `isActive`: whether controls exist. */
    function IsActive(): (b: bool)
      reads this
      ensures b <==> controls != null
    {
      controls != null
    }

    /** `ensureFrameSubscription`: subscribe when ticking is needed and none is registered; unsubscribe in the opposite case. */
    method EnsureFrameSubscription()
      modifies this`subscribed, this`subscriptions
      ensures Valid()
      ensures subscriptions == old(subscriptions) + (if NeedsTicking(controls) && !old(subscribed) then 1 else 0)
    {
      var shouldTick := NeedsTicking(controls);
      if shouldTick {
        if !subscribed {
          subscribed := true;
          subscriptions := subscriptions + 1;
        }
      } else if subscribed {
        subscribed := false;
      }
    }

    /** `disposeControls`: the frame callback is stopped, the controls disposed and forgotten. */
    method DisposeControls()
      modifies this`subscribed, this`controls, ControlsSet(controls)`disposeCount
      ensures controls == null && !subscribed && Valid()
      ensures old(controls) != null ==> old(controls).disposeCount == old(controls.disposeCount) + 1
    {
      subscribed := false;
      if controls != null {
        controls.Dispose();
      }
      controls := null;
    }

    /** `applyOptions`: nothing without controls; otherwise the options, one `update`, and the subscription brought in line. */
    method ApplyOptions(options: Option<ControlsOptions>)
      modifies this`subscribed, this`subscriptions, ControlsSet(controls)
      ensures controls != null ==>
        && controls.Settings() == Configure(OrDefault(options, NoOptions), old(controls.Settings()))
        && controls.camera == old(controls.camera) && controls.canvas == old(controls.canvas)
        && controls.updates == old(controls.updates) + 1
        && controls.disposeCount == old(controls.disposeCount)
        && Valid()
        && subscriptions == old(subscriptions) + (if NeedsTicking(controls) && !old(subscribed) then 1 else 0)
      ensures controls == null ==> subscribed == old(subscribed) && subscriptions == old(subscriptions)
      ensures old(Valid()) ==> Valid()
    {
      if controls == null {
        return;
      }
      ApplyToInstance(controls, OrDefault(options, NoOptions));
      EnsureFrameSubscription();
    }

    /**
     * The camera/renderer watcher: once stopped it does nothing; without a camera, renderer or
     * canvas the controls are disposed; otherwise a new token is taken and returned for the
     * request that will build the controls.
     */
    method SourcesChanged(camera: Camera?, renderer: Option<Renderer>) returns (request: Option<(nat, Camera, nat)>)
      requires Valid()
      modifies this`subscribed, this`controls, this`lastToken, ControlsSet(controls)`disposeCount
      ensures Valid()
      ensures !watching ==>
        request == None && controls == old(controls) && lastToken == old(lastToken)
        && (controls != null ==> controls.disposeCount == old(controls.disposeCount))
      ensures watching && (camera == null || renderer == None || renderer.value.canvas == None) ==>
        request == None && controls == null && lastToken == old(lastToken)
        && (old(controls) != null ==> old(controls).disposeCount == old(controls.disposeCount) + 1)
      ensures watching && camera != null && renderer.Some? && renderer.value.canvas.Some? ==>
        lastToken == old(lastToken) + 1 && request == Some((lastToken, camera, renderer.value.canvas.value))
        && controls == old(controls)
        && (controls != null ==> controls.disposeCount == old(controls.disposeCount))
    {
      if !watching {
        return None;
      }
      if camera == null || renderer == None {
        DisposeControls();
        return None;
      }
      if renderer.value.canvas == None {
        DisposeControls();
        return None;
      }
      lastToken := lastToken + 1;
      request := Some((lastToken, camera, renderer.value.canvas.value));
    }

    /**
     * The constructor became available for the request holding `token`: after disposal or for a
     * superseded request nothing happens; otherwise the old controls are disposed and new ones,
     * on that camera and canvas, get the options.
     */
    method Build(token: nat, camera: Camera, canvas: nat, options: Option<ControlsOptions>)
      modifies this`subscribed, this`subscriptions, this`controls, ControlsSet(controls)`disposeCount
      ensures old(Valid()) ==> Valid()
      ensures disposed || token != lastToken ==>
        controls == old(controls) && subscribed == old(subscribed) && subscriptions == old(subscriptions)
        && (controls != null ==> controls.disposeCount == old(controls.disposeCount))
      ensures !disposed && token == lastToken ==>
        && fresh(controls) && controls.camera == camera && controls.canvas == canvas
        && controls.Settings() == Configure(OrDefault(options, NoOptions), Defaults)
        && subscribed == NeedsTicking(controls)
        && subscriptions == old(subscriptions) + (if NeedsTicking(controls) then 1 else 0)
        && controls.updates == 1 && controls.disposeCount == 0 && Valid()
        && (old(controls) != null ==> old(controls).disposeCount == old(controls.disposeCount) + 1)
    {
      if disposed || token != lastToken {
        return;
      }
      DisposeControls();
      var instance := new Controls(camera, canvas);
      controls := instance;
      ApplyOptions(options);
    }

    /** `dispose`: marks the composable disposed, stops the watcher and disposes the controls. */
    method Dispose()
      modifies this`disposed, this`watching, this`subscribed, this`controls, ControlsSet(controls)`disposeCount
      ensures disposed && !watching && controls == null && !subscribed && Valid()
      ensures old(controls) != null ==> old(controls).disposeCount == old(controls.disposeCount) + 1
    {
      disposed := true;
      watching := false;
      DisposeControls();
    }
  }

  /** A request superseded by a newer one builds nothing; after disposal even the newest builds nothing. */
  method SupersededBuildScenario(camera: Camera)
  {
    var state := new ControlsState();
    var first := state.SourcesChanged(camera, Some(Renderer(1, Some(7))));
    var second := state.SourcesChanged(camera, Some(Renderer(1, Some(8))));
    state.Build(first.value.0, camera, 7, None);
    assert state.controls == null;
    state.Build(second.value.0, camera, 8, Some(NoOptions.(autoRotate := Some(true))));
    assert state.controls != null && state.controls.canvas == 8 && state.subscribed;
    state.Dispose();
    state.Build(second.value.0, camera, 8, None);
    assert state.controls == null && !state.subscribed;
  }
}

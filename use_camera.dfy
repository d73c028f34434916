/**
 * `useCamera`: a managed perspective camera kept in step with its options, and registered as
 * the active camera of the nearest provider while its `active` option allows.
 */
module UseCamera {
  import opened Common
  import opened Engine

  datatype CameraOptions = CameraOptions(
    fov: Option<real>, near: Option<real>, far: Option<real>,
    position: Option<Vec3>, up: Option<Vec3>, lookAt: Option<Vec3>, active: Option<bool>)

  const NoOptions := CameraOptions(None, None, None, None, None, None, None)
  const DefaultPosition := Vec3(0.0, 0.0, 5.0)
  const DefaultUp := Vec3(0.0, 1.0, 0.0)
  const MinNear: real := 0.0001
  const MinDepth: real := 0.0001

  /** `opts ? toValue(opts) ?? {} : {}`: absent options read as empty ones. */
  function Resolve(options: Option<CameraOptions>): CameraOptions
  {
    if options.Some? then options.value else NoOptions
  }

  /** A camera ownership token handed out by the provider. */
  class OwnerToken {
    constructor ()
    {
    }
  }

  /** A call the composable makes into the provider (whose implementation is not part of this model). */
  datatype ContextCall =
    | SetCameraCall(camera: Camera, owner: OwnerToken)
    | ReleaseCameraCall(owner: OwnerToken, camera: Camera)

  /**
   * The provider's camera registry as seen from the composable: the calls it received, in order,
   * and the owners it issued. `setCamera` is always asked not to dispose the previous camera and
   * `releaseCamera` not to dispose this one.
   */
  class CameraContext {
    var calls: seq<ContextCall>
    var owners: seq<OwnerToken>

    constructor ()
      ensures calls == [] && owners == []
    {
      calls := [];
      owners := [];
    }

    method RegisterCameraOwner() returns (o: OwnerToken)
      modifies this`owners
      ensures fresh(o) && owners == old(owners) + [o]
    {
      o := new OwnerToken();
      owners := owners + [o];
    }

    method SetCamera(camera: Camera, owner: OwnerToken)
      modifies this`calls
      ensures calls == old(calls) + [SetCameraCall(camera, owner)]
    {
      calls := calls + [SetCameraCall(camera, owner)];
    }

    method ReleaseCamera(owner: OwnerToken, camera: Camera)
      modifies this`calls
      ensures calls == old(calls) + [ReleaseCameraCall(owner, camera)]
    {
      calls := calls + [ReleaseCameraCall(owner, camera)];
    }
  }

  function CameraSet(c: Camera?): set<Camera>
  {
    if c == null then {} else {c}
  }

  function ContextSet(c: CameraContext?): set<CameraContext>
  {
    if c == null then {} else {c}
  }

  class CameraState {
    var camera: Camera?
    var lastFov: Option<real>
    var lastNear: Option<real>
    var lastFar: Option<real>
    var owner: OwnerToken?
    var active: bool
    var boundContext: CameraContext?

    /** The remembered projection values are the camera's own (so an unchanged option is skipped). */
    ghost predicate Valid()
      reads this, CameraSet(camera)
    {
      camera != null ==> lastFov == Some(camera.fov) && lastNear == Some(camera.near) && lastFar == Some(camera.far)
    }

    constructor ()
      ensures camera == null && owner == null && !active && boundContext == null
      ensures lastFov == None && lastNear == None && lastFar == None && Valid()
    {
      camera := null;
      lastFov, lastNear, lastFar := None, None, None;
      owner := null;
      active := false;
      boundContext := null;
    }

    /**
     * `ensureCamera`: made once, from the numeric options or 60, 0.1 and 100 (taken as given,
     * without the clamping a later change gets), aspect 1, the given or default position and up.
     */
    method EnsureCamera(opts: CameraOptions) returns (instance: Camera)
      modifies this`camera, this`lastFov, this`lastNear, this`lastFar
      ensures old(camera) != null ==>
        instance == old(camera) && lastFov == old(lastFov) && lastNear == old(lastNear) && lastFar == old(lastFar)
      ensures old(camera) == null ==>
        && fresh(instance)
        && instance.fov == OrDefault(opts.fov, 60.0) && instance.near == OrDefault(opts.near, 0.1)
        && instance.far == OrDefault(opts.far, 100.0) && instance.aspect == 1.0
        && instance.position == OrDefault(opts.position, DefaultPosition)
        && instance.up == OrDefault(opts.up, DefaultUp)
        && instance.lookedAt == None && instance.projectionUpdates == 0 && instance.disposeCount == 0
      ensures camera == instance
      ensures old(Valid()) ==> Valid()
    {
      if camera == null {
        var fov := OrDefault(opts.fov, 60.0);
        var near := OrDefault(opts.near, 0.1);
        var far := OrDefault(opts.far, 100.0);
        var c := new Camera(fov, 1.0, near, far);
        c.position := OrDefault(opts.position, DefaultPosition);
        c.up := OrDefault(opts.up, DefaultUp);
        camera := c;
        lastFov, lastNear, lastFar := Some(fov), Some(near), Some(far);
      }
      instance := camera;
    }

    /**
     * The projection part of the options effect: a changed fov is taken, a changed near is
     * clamped to at least 0.0001, a changed far to at least the (new) near plus 0.0001; the
     * projection is rebuilt once exactly when one of the three changed.
     */
    method SyncProjection(opts: CameraOptions)
      requires Valid() && camera != null
      modifies this`lastFov, this`lastNear, this`lastFar,
               camera`fov, camera`near, camera`far, camera`projectionUpdates
      ensures Valid()
      ensures
        var fovChanged := opts.fov.Some? && opts.fov.value != old(camera.fov);
        var nearChanged := opts.near.Some? && opts.near.value != old(camera.near);
        var farChanged := opts.far.Some? && opts.far.value != old(camera.far);
        && camera.fov == (if fovChanged then opts.fov.value else old(camera.fov))
        && camera.near == (if nearChanged then Max(MinNear, opts.near.value) else old(camera.near))
        && camera.far == (if farChanged then Max(camera.near + MinDepth, opts.far.value) else old(camera.far))
        && camera.projectionUpdates == old(camera.projectionUpdates) + (if fovChanged || nearChanged || farChanged then 1 else 0)
    {
      var instance := camera;
      var needsProjectionUpdate := false;
      if opts.fov.Some? && Some(opts.fov.value) != lastFov {
        instance.fov := opts.fov.value;
        lastFov := Some(opts.fov.value);
        needsProjectionUpdate := true;
      }
      if opts.near.Some? && Some(opts.near.value) != lastNear {
        instance.near := Max(MinNear, opts.near.value);
        lastNear := Some(instance.near);
        needsProjectionUpdate := true;
      }
      if opts.far.Some? && Some(opts.far.value) != lastFar {
        instance.far := Max(instance.near + MinDepth, opts.far.value);
        lastFar := Some(instance.far);
        needsProjectionUpdate := true;
      }
      if needsProjectionUpdate {
        instance.UpdateProjectionMatrix();
      }
    }

    /** The placement part of the options effect: position and up follow the options or their defaults; a given target is looked at. */
    method SyncPlacement(opts: CameraOptions)
      requires camera != null
      modifies camera`position, camera`up, camera`lookedAt
      ensures camera.position == OrDefault(opts.position, DefaultPosition)
      ensures camera.up == OrDefault(opts.up, DefaultUp)
      ensures camera.lookedAt == (if opts.lookAt.Some? then opts.lookAt else old(camera.lookedAt))
    {
      var instance := camera;
      var nextPosition := OrDefault(opts.position, DefaultPosition);
      if nextPosition != instance.position {
        instance.position := nextPosition;
      }
      var nextUp := OrDefault(opts.up, DefaultUp);
      if nextUp != instance.up {
        instance.up := nextUp;
      }
      if opts.lookAt.Some? {
        instance.lookedAt := opts.lookAt;
      }
    }

    /** The options effect: the camera is made if needed, then its projection and placement follow the options. */
    method SyncOptions(options: Option<CameraOptions>)
      requires Valid()
      modifies this`camera, this`lastFov, this`lastNear, this`lastFar, CameraSet(camera)
      ensures Valid() && camera != null
      ensures old(camera) == null ==>
        && fresh(camera) && camera.projectionUpdates == 0 && camera.disposeCount == 0 && camera.aspect == 1.0
        && camera.lookedAt == Resolve(options).lookAt
        && camera.fov == OrDefault(Resolve(options).fov, 60.0)
        && camera.near == OrDefault(Resolve(options).near, 0.1)
        && camera.far == OrDefault(Resolve(options).far, 100.0)
      ensures old(camera) != null ==>
        var o := Resolve(options);
        var fovChanged := o.fov.Some? && o.fov.value != old(camera.fov);
        var nearChanged := o.near.Some? && o.near.value != old(camera.near);
        var farChanged := o.far.Some? && o.far.value != old(camera.far);
        && camera == old(camera) && camera.aspect == old(camera.aspect)
        && camera.fov == (if fovChanged then o.fov.value else old(camera.fov))
        && camera.near == (if nearChanged then Max(MinNear, o.near.value) else old(camera.near))
        && camera.far == (if farChanged then Max(camera.near + MinDepth, o.far.value) else old(camera.far))
        && camera.projectionUpdates == old(camera.projectionUpdates) + (if fovChanged || nearChanged || farChanged then 1 else 0)
        && camera.lookedAt == (if o.lookAt.Some? then o.lookAt else old(camera.lookedAt))
        && camera.disposeCount == old(camera.disposeCount)
      ensures camera.position == OrDefault(Resolve(options).position, DefaultPosition)
      ensures camera.up == OrDefault(Resolve(options).up, DefaultUp)
    {
      var opts := Resolve(options);
      var instance := EnsureCamera(opts);
      SyncProjection(opts);
      SyncPlacement(opts);
    }

    /**
     * The ownership effect. Without a provider or a camera nothing happens. Moving to a new
     * provider releases the camera from the old one when active, and takes a new owner; then
     * the camera is set when it should be active and is not, and released in the opposite case.
     */
    method SyncOwnership(ctx: CameraContext?, options: Option<CameraOptions>)
      modifies this`owner, this`boundContext, this`active, ContextSet(ctx), ContextSet(boundContext)
      ensures ctx == null || camera == null ==>
        owner == old(owner) && boundContext == old(boundContext) && active == old(active)
      ensures ctx != null && camera == null ==> ctx.calls == old(ctx.calls) && ctx.owners == old(ctx.owners)
      ensures (ctx == null || camera == null) && old(boundContext) != null ==>
        old(boundContext).calls == old(boundContext.calls) && old(boundContext).owners == old(boundContext.owners)
      ensures ctx != null && camera != null ==>
        boundContext == ctx && owner != null && active == (Resolve(options).active != Some(false))
      ensures ctx != null && camera != null ==>
        var newOwner := ctx != old(boundContext) || old(owner) == null;
        && ctx.owners == old(ctx.owners) + (if newOwner then [owner] else [])
        && (newOwner ==> fresh(owner))
      ensures ctx != null && camera != null && ctx != old(boundContext) && old(boundContext) != null ==>
        && old(boundContext).calls == old(boundContext.calls)
          + (if old(owner) != null && old(active) then [ReleaseCameraCall(old(owner), camera)] else [])
        && old(boundContext).owners == old(boundContext.owners)
      ensures ctx != null && camera != null && ctx == old(boundContext) && old(owner) != null ==>
        owner == old(owner)
      ensures ctx != null && camera != null ==>
        var shouldBeActive := Resolve(options).active != Some(false);
        var wasActive := old(active) && ctx == old(boundContext);
        ctx.calls == old(ctx.calls)
          + (if shouldBeActive && !wasActive then [SetCameraCall(camera, owner)]
             else if !shouldBeActive && wasActive then [ReleaseCameraCall(owner, camera)]
             else [])
    {
      if ctx == null || camera == null {
        return;
      }
      var instance := camera;
      if ctx != boundContext {
        if boundContext != null && owner != null && active {
          boundContext.ReleaseCamera(owner, instance);
        }
        var o := ctx.RegisterCameraOwner();
        owner := o;
        boundContext := ctx;
        active := false;
      }
      if owner == null {
        var o := ctx.RegisterCameraOwner();
        owner := o;
      }
      var shouldBeActive := Resolve(options).active != Some(false);
      if shouldBeActive && !active {
        ctx.SetCamera(instance, owner);
        active := true;
      } else if !shouldBeActive && active {
        ctx.ReleaseCamera(owner, instance);
        active := false;
      }
    }

    /** The ownership effect's cleanup: an active camera is released from its provider. */
    method Cleanup()
      modifies this`active, ContextSet(boundContext)`calls
      ensures active == (old(active) && (boundContext == null || owner == null || camera == null))
      ensures boundContext != null ==>
        boundContext.calls == old(boundContext.calls)
          + (if old(active) && owner != null && camera != null then [ReleaseCameraCall(owner, camera)] else [])
    {
      if active && boundContext != null && owner != null && camera != null {
        boundContext.ReleaseCamera(owner, camera);
        active := false;
      }
    }

    /**
     * `dispose`: a bound, owned camera is released (and marked inactive), then disposed; the
     * camera, owner and provider binding are forgotten.
     */
    method Dispose()
      modifies this`camera, this`owner, this`boundContext, this`active,
               CameraSet(camera)`disposeCount, ContextSet(boundContext)`calls
      ensures camera == null && owner == null && boundContext == null && Valid()
      ensures old(camera) != null ==> old(camera).disposeCount == old(camera.disposeCount) + 1
      ensures old(boundContext) != null ==>
        old(boundContext).calls == old(boundContext.calls)
          + (if old(camera) != null && old(owner) != null then [ReleaseCameraCall(old(owner), old(camera))] else [])
      ensures active == (old(active) && (old(boundContext) == null || old(camera) == null || old(owner) == null))
    {
      var ctx := boundContext;
      if ctx != null && camera != null && owner != null {
        ctx.ReleaseCamera(owner, camera);
        active := false;
      }
      if camera != null {
        camera.Dispose();
      }
      camera := null;
      owner := null;
      boundContext := null;
    }
  }

  /**
   * The clamp on `far` is against the near plane of that moment only: raising `near` past an
   * unchanged `far` leaves the far plane in front of the near one.
   */
  method NearPassesFarScenario()
  {
    var state := new CameraState();
    state.SyncOptions(Some(NoOptions.(near := Some(1.0), far := Some(10.0))));
    assert state.camera.near == 1.0 && state.camera.far == 10.0;
    state.SyncOptions(Some(NoOptions.(near := Some(50.0), far := Some(10.0))));
    assert state.camera.near == 50.0 && state.camera.far == 10.0;
  }
}

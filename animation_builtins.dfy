/**
 * The built-in animations `spin`, `rotate`, `bounce` and `pulse`: how each factory normalises
 * its options, and what the per-frame callback it returns does to the animated object.
 */
module AnimationBuiltins {
  import opened Common
  import opened Engine

  /** A value found in an untyped options bag. */
  datatype Value = Num(n: real) | Str(s: string) | Bool(b: bool) | NullValue | ObjectValue

  /** An options bag: a missing key is `undefined`. */
  type Options = map<string, Value>

  /** The per-object state every animation receives. */
  datatype AnimState = AnimState(t: real, paused: bool)

  /**
   * A per-frame callback. The four built-ins carry their normalised options; `Produced` is what
   * a factory registered by the user returns for the given options, and `UserCallback` a function
   * the user passes directly.
   */
  datatype Animation =
    | SpinAnimation(axis: Axis, speed: real)
    | RotateAnimation(x: real, y: real, z: real)
    | BounceAnimation(axis: Axis, amplitude: real, frequency: real, center: real)
    | PulseAnimation(amplitude: real, frequency: real, base: real)
    | Produced(factory: nat, options: Option<Options>)
    | UserCallback(id: nat)
  {
    predicate IsBuiltin()
    {
      SpinAnimation? || RotateAnimation? || BounceAnimation? || PulseAnimation?
    }
  }

  /** An animation factory: one of the built-ins, or one the user registered. */
  datatype Factory = SpinFactory | RotateFactory | BounceFactory | PulseFactory | UserFactory(id: nat)

  function AxisName(a: Axis): string
  {
    match a
    case X => "x"
    case Y => "y"
    case Z => "z"
  }

  /** `options?.[key]`, with `undefined` as `None`. */
  function Lookup(options: Option<Options>, key: string): Option<Value>
  {
    if options.Some? && key in options.value then Some(options.value[key]) else None
  }

  /** The axis option: kept when it is exactly `'x'`, `'y'` or `'z'`, `'y'` otherwise. */
  function AxisOption(options: Option<Options>): (a: Axis)
    ensures Lookup(options, "axis") == Some(Str(AxisName(a))) || a == Y
    ensures forall b: Axis :: Lookup(options, "axis") == Some(Str(AxisName(b))) ==> a == b
  {
    match Lookup(options, "axis")
    case Some(Str("x")) => X
    case Some(Str("y")) => Y
    case Some(Str("z")) => Z
    case _ => Y
  }

  /** A numeric option (`typeof v === 'number'`), or `default` when the value is anything else. */
  function NumberOption(options: Option<Options>, key: string, default: real): (r: real)
    ensures Lookup(options, key).Some? && Lookup(options, key).value.Num? ==> r == Lookup(options, key).value.n
    ensures !(Lookup(options, key).Some? && Lookup(options, key).value.Num?) ==> r == default
  {
    match Lookup(options, key)
    case Some(Num(n)) => n
    case _ => default
  }

  /** `spin(options)`: axis `'y'` and speed 1 unless the options say otherwise. */
  function Spin(options: Option<Options>): (a: Animation)
    ensures a.SpinAnimation? && a.axis == AxisOption(options) && a.speed == NumberOption(options, "speed", 1.0)
    ensures options == None ==> a == SpinAnimation(Y, 1.0)
  {
    SpinAnimation(AxisOption(options), NumberOption(options, "speed", 1.0))
  }

  /** `rotate(options)`: each component `options?.c ?? 0`; a component that is not a number counts as 0. */
  function Rotate(options: Option<Options>): (a: Animation)
    ensures a.RotateAnimation?
    ensures options == None ==> a == RotateAnimation(0.0, 0.0, 0.0)
    ensures a.x == NumberOption(options, "x", 0.0) && a.y == NumberOption(options, "y", 0.0)
    ensures a.z == NumberOption(options, "z", 0.0)
  {
    RotateAnimation(NumberOption(options, "x", 0.0), NumberOption(options, "y", 0.0), NumberOption(options, "z", 0.0))
  }

  /** `bounce(options)`: axis `'y'`, amplitude 0.25, frequency 1 and centre 0 by default. */
  function Bounce(options: Option<Options>): (a: Animation)
    ensures a.BounceAnimation? && a.axis == AxisOption(options)
    ensures a.amplitude == NumberOption(options, "amplitude", 0.25)
    ensures a.frequency == NumberOption(options, "frequency", 1.0)
    ensures a.center == NumberOption(options, "center", 0.0)
    ensures options == None ==> a == BounceAnimation(Y, 0.25, 1.0, 0.0)
  {
    BounceAnimation(AxisOption(options), NumberOption(options, "amplitude", 0.25),
                    NumberOption(options, "frequency", 1.0), NumberOption(options, "center", 0.0))
  }

  /** `pulse(options)`: amplitude 0.15, frequency 1.5 and base 1 by default. */
  function Pulse(options: Option<Options>): (a: Animation)
    ensures a.PulseAnimation?
    ensures a.amplitude == NumberOption(options, "amplitude", 0.15)
    ensures a.frequency == NumberOption(options, "frequency", 1.5)
    ensures a.base == NumberOption(options, "base", 1.0)
    ensures options == None ==> a == PulseAnimation(0.15, 1.5, 1.0)
  {
    PulseAnimation(NumberOption(options, "amplitude", 0.15), NumberOption(options, "frequency", 1.5),
                   NumberOption(options, "base", 1.0))
  }

  /** Calling a factory with the given options. */
  function Instantiate(f: Factory, options: Option<Options>): (a: Animation)
    ensures f.UserFactory? <==> !a.IsBuiltin()
    ensures f == SpinFactory ==> a == Spin(options)
    ensures f == RotateFactory ==> a == Rotate(options)
    ensures f == BounceFactory ==> a == Bounce(options)
    ensures f == PulseFactory ==> a == Pulse(options)
    ensures f.UserFactory? ==> a == Produced(f.id, options)
  {
    match f
    case SpinFactory => Spin(options)
    case RotateFactory => Rotate(options)
    case BounceFactory => Bounce(options)
    case PulseFactory => Pulse(options)
    case UserFactory(id) => Produced(id, options)
  }

  /** Each `bounce` setting is defaulted on its own: giving one numeric key changes only that setting. */
  lemma BounceKeysIndependent(o: Options, v: real)
    ensures var b := Bounce(Some(o));
      && Bounce(Some(o["amplitude" := Num(v)])) == BounceAnimation(b.axis, v, b.frequency, b.center)
      && Bounce(Some(o["frequency" := Num(v)])) == BounceAnimation(b.axis, b.amplitude, v, b.center)
      && Bounce(Some(o["center" := Num(v)])) == BounceAnimation(b.axis, b.amplitude, b.frequency, v)
  {
  }

  /** Each `pulse` setting is defaulted on its own: giving one numeric key changes only that setting. */
  lemma PulseKeysIndependent(o: Options, v: real)
    ensures var p := Pulse(Some(o));
      && Pulse(Some(o["amplitude" := Num(v)])) == PulseAnimation(v, p.frequency, p.base)
      && Pulse(Some(o["frequency" := Num(v)])) == PulseAnimation(p.amplitude, v, p.base)
      && Pulse(Some(o["base" := Num(v)])) == PulseAnimation(p.amplitude, p.frequency, v)
  {
  }

  /** The rotation after one `spin` frame: paused or frozen clocks change nothing; the chosen axis advances by `speed * dt`. */
  function SpinFrame(axis: Axis, speed: real, rotation: Vec3, paused: bool, dt: real): (r: Vec3)
    ensures paused || dt == 0.0 ==> r == rotation
    ensures !paused && dt != 0.0 ==> Component(r, axis) == Component(rotation, axis) + speed * dt
    ensures forall b: Axis :: b != axis ==> Component(r, b) == Component(rotation, b)
  {
    if paused || dt == 0.0 then rotation
    else WithComponent(rotation, axis, Component(rotation, axis) + speed * dt)
  }

  /** One axis of a `rotate` frame: a zero component leaves the axis untouched. */
  function RotateAxis(angle: real, c: real, dt: real): real
  {
    if c != 0.0 then angle + c * dt else angle
  }

  /** The rotation after one `rotate` frame: every axis advances by its component times `dt`. */
  function RotateFrame(x: real, y: real, z: real, rotation: Vec3, paused: bool, dt: real): (r: Vec3)
    ensures paused || dt == 0.0 ==> r == rotation
    ensures !paused ==> r == Vec3(rotation.x + x * dt, rotation.y + y * dt, rotation.z + z * dt)
    ensures x == 0.0 ==> r.x == rotation.x
    ensures y == 0.0 ==> r.y == rotation.y
    ensures z == 0.0 ==> r.z == rotation.z
  {
    if paused || dt == 0.0 then rotation
    else Vec3(RotateAxis(rotation.x, x, dt), RotateAxis(rotation.y, y, dt), RotateAxis(rotation.z, z, dt))
  }

  /**
   * Runs one frame of a built-in animation on `obj`. `wave` is the value of
   * `Math.sin(now * frequency * 2π)`, which `bounce` and `pulse` read and which is not modelled.
   */
  method Play(anim: Animation, obj: Object3D, state: AnimState, dt: real, now: real, wave: real)
    requires anim.IsBuiltin()
    modifies obj
    ensures state.paused ==> obj.rotation == old(obj.rotation) && obj.position == old(obj.position)
                             && obj.scale == old(obj.scale)
    ensures anim.SpinAnimation? ==>
      obj.rotation == SpinFrame(anim.axis, anim.speed, old(obj.rotation), state.paused, dt)
      && obj.position == old(obj.position) && obj.scale == old(obj.scale)
    ensures anim.RotateAnimation? ==>
      obj.rotation == RotateFrame(anim.x, anim.y, anim.z, old(obj.rotation), state.paused, dt)
      && obj.position == old(obj.position) && obj.scale == old(obj.scale)
    ensures anim.BounceAnimation? && !state.paused ==>
      obj.position == WithComponent(old(obj.position), anim.axis, anim.center + wave * anim.amplitude)
      && obj.rotation == old(obj.rotation) && obj.scale == old(obj.scale)
    ensures anim.PulseAnimation? && !state.paused ==>
      var s := anim.base + wave * anim.amplitude;
      obj.scale == Vec3(s, s, s) && obj.rotation == old(obj.rotation) && obj.position == old(obj.position)
  {
    match anim
    case SpinAnimation(axis, speed) =>
      if state.paused || dt == 0.0 {
        return;
      }
      obj.rotation := WithComponent(obj.rotation, axis, Component(obj.rotation, axis) + speed * dt);
    case RotateAnimation(x, y, z) =>
      if state.paused || dt == 0.0 {
        return;
      }
      if x != 0.0 {
        obj.rotation := obj.rotation.(x := obj.rotation.x + x * dt);
      }
      if y != 0.0 {
        obj.rotation := obj.rotation.(y := obj.rotation.y + y * dt);
      }
      if z != 0.0 {
        obj.rotation := obj.rotation.(z := obj.rotation.z + z * dt);
      }
    case BounceAnimation(axis, amplitude, _, center) =>
      if state.paused {
        return;
      }
      obj.position := WithComponent(obj.position, axis, center + wave * amplitude);
    case PulseAnimation(amplitude, _, base) =>
      if state.paused {
        return;
      }
      var scalar := base + wave * amplitude;
      obj.scale := Vec3(scalar, scalar, scalar);
  }
}

/** Plain values shared by the consumers: optional values, vectors, colours, errors. */
module Common {

  /** `T | undefined` (and, where the source treats them alike, `T | null`). */
  datatype Option<+T> = None | Some(value: T)

  /**
   * An option field where `undefined` and `null` mean different things: `Undefined` leaves
   * the target alone, `Null` clears it, `Value(v)` sets it.
   */
  datatype Nullable<+T> = Undefined | Null | Value(v: T)

  /** An `[x, y, z]` triple (the `Vec3` tuple of the library). */
  datatype Vec3 = Vec3(x: real, y: real, z: real)

  /** The three axes a built-in animation may act on. */
  datatype Axis = X | Y | Z

  /** A colour as the library receives it: a hex number or a CSS string. */
  datatype ColorLike = Hex(n: int) | Css(s: string)

  /** An error kept as inspectable state: its message and, when there was one, the cause's message. */
  datatype LoadError = LoadError(message: string, cause: Option<string>)

  /** `v ?? default`: the value when one is given, the default otherwise. */
  function OrDefault<T>(v: Option<T>, default: T): T
  {
    if v.Some? then v.value else default
  }

  function Component(v: Vec3, a: Axis): real
  {
    match a
    case X => v.x
    case Y => v.y
    case Z => v.z
  }

  /** `v` with axis `a` replaced by `r`, the other two axes kept. */
  function WithComponent(v: Vec3, a: Axis, r: real): (w: Vec3)
    ensures Component(w, a) == r
    ensures forall b: Axis :: b != a ==> Component(w, b) == Component(v, b)
  {
    match a
    case X => v.(x := r)
    case Y => v.(y := r)
    case Z => v.(z := r)
  }

  /** `Math.max` on reals. */
  function Max(a: real, b: real): (m: real)
    ensures m >= a && m >= b
    ensures m == a || m == b
  {
    if a >= b then a else b
  }
}

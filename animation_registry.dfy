/**
 * The process-wide animation registry: a name-to-factory map where the last registration of a
 * name wins, and the resolution of declarative animation specs against it.
 */
module AnimationRegistry {
  import opened Common
  import opened AnimationBuiltins

  /**
   * A declarative animation spec: absent (`null`/`undefined`), a callback passed as is, a
   * factory name, or a `{ name, options }` record (its `name` possibly `undefined`).
   */
  datatype Spec =
    | Absent
    | FunctionSpec(animation: Animation)
    | NameSpec(name: string)
    | RecordSpec(recordName: Option<string>, options: Option<Options>)

  /** The factory registered under `name`; an empty or undefined name never resolves. */
  function ResolveFactory(registry: map<string, Factory>, name: Option<string>): (f: Option<Factory>)
    ensures f.Some? <==> name.Some? && name.value != "" && name.value in registry
    ensures f.Some? ==> f.value == registry[name.value]
  {
    if name == None || name.value == "" then None
    else if name.value in registry then Some(registry[name.value])
    else None
  }

  /** `resolveAnimation(spec)`: total, never fails, `None` for anything it cannot resolve. */
  function ResolveAnimation(registry: map<string, Factory>, spec: Spec): (r: Option<Animation>)
    ensures spec.Absent? ==> r == None
    ensures spec.FunctionSpec? ==> r == Some(spec.animation)
    ensures spec.NameSpec? ==>
      r == (if spec.name != "" && spec.name in registry then Some(Instantiate(registry[spec.name], None)) else None)
    ensures spec.RecordSpec? ==>
      r == (if ResolveFactory(registry, spec.recordName).Some?
            then Some(Instantiate(ResolveFactory(registry, spec.recordName).value, spec.options)) else None)
  {
    match spec
    case Absent => None
    case FunctionSpec(animation) => Some(animation)
    case NameSpec(name) =>
      if name == "" then None
      else (
        match ResolveFactory(registry, Some(name))
        case Some(factory) => Some(Instantiate(factory, None))
        case None => None)
    case RecordSpec(name, options) =>
      match ResolveFactory(registry, name)
      case Some(factory) => Some(Instantiate(factory, options))
      case None => None
  }

  /** The registry's contents once the built-ins have registered themselves. */
  function BuiltinFactories(): map<string, Factory>
  {
    map["spin" := SpinFactory, "rotate" := RotateFactory, "bounce" := BounceFactory, "pulse" := PulseFactory]
  }

  /** The module-level registry map. */
  class Registry {
    var factories: map<string, Factory>

    constructor ()
      ensures factories == map[]
    {
      factories := map[];
    }

    /** `registerAnimation(name, factory)`: overwrites `name`, leaves every other entry alone; even `""` is stored. */
    method Register(name: string, factory: Factory)
      modifies this
      ensures factories == old(factories)[name := factory]
      ensures name in factories && factories[name] == factory
      ensures forall n :: n != name ==> (n in factories <==> n in old(factories))
      ensures forall n :: n != name && n in old(factories) ==> factories[n] == old(factories)[n]
    {
      factories := factories[name := factory];
    }

    /** The four registrations the built-in module makes when it is loaded. */
    method RegisterBuiltins()
      modifies this
      ensures factories == old(factories) + BuiltinFactories()
    {
      Register("spin", SpinFactory);
      Register("rotate", RotateFactory);
      Register("bounce", BounceFactory);
      Register("pulse", PulseFactory);
    }
  }

  /** Whatever is stored under `""`, an empty name resolves to nothing, as a string and as a record. */
  lemma EmptyNameNeverResolves(registry: map<string, Factory>, options: Option<Options>)
    ensures ResolveAnimation(registry, NameSpec("")) == None
    ensures ResolveAnimation(registry, RecordSpec(Some(""), options)) == None
    ensures ResolveAnimation(registry, RecordSpec(None, options)) == None
  {
  }

  /**
   * A later registration of a name replaces the earlier one for every spec naming it, and does
   * not affect specs naming anything else.
   */
  lemma LastRegistrationWins(registry: map<string, Factory>, name: string, factory: Factory, spec: Spec)
    requires name != ""
    ensures spec == NameSpec(name) ==>
      ResolveAnimation(registry[name := factory], spec) == Some(Instantiate(factory, None))
    ensures spec.RecordSpec? && spec.recordName == Some(name) ==>
      ResolveAnimation(registry[name := factory], spec) == Some(Instantiate(factory, spec.options))
    ensures (spec.NameSpec? ==> spec.name != name) && (spec.RecordSpec? ==> spec.recordName != Some(name)) ==>
      ResolveAnimation(registry[name := factory], spec) == ResolveAnimation(registry, spec)
  {
  }

  /**
   * Registering `spin` and resolving `{ name: 'spin', options: { axis: 'x', speed: 2 } }` gives a
   * callback that, at `dt = 0.5`, turns the object by exactly 1 about x and leaves y and z alone;
   * paused, it does nothing.
   */
  lemma SpinRoundTrip(rotation: Common.Vec3)
    ensures var spec := RecordSpec(Some("spin"), Some(map["axis" := Str("x"), "speed" := Num(2.0)]));
      var r := ResolveAnimation(BuiltinFactories(), spec);
      && r == Some(SpinAnimation(X, 2.0))
      && SpinFrame(X, 2.0, rotation, false, 0.5) == Common.Vec3(rotation.x + 1.0, rotation.y, rotation.z)
      && SpinFrame(X, 2.0, rotation, true, 0.5) == rotation
  {
    var options := map["axis" := Str("x"), "speed" := Num(2.0)];
    assert Lookup(Some(options), "axis") == Some(Str("x"));
    assert Lookup(Some(options), "speed") == Some(Num(2.0));
  }
}

/** `useStandardMaterial`: one standard material, made once and updated in place from its options. */
module UseStandardMaterial {
  import opened Common
  import opened Engine

  /**
   * The options; `map` and `envMap` distinguish `undefined` (leave alone), `null` (clear) and a
   * texture (set).
   */
  datatype MaterialOptions = MaterialOptions(
    color: Option<ColorLike>, roughness: Option<real>, metalness: Option<real>,
    emissive: Option<ColorLike>, envMap: Nullable<Texture>, textureMap: Nullable<Texture>)

  const NoOptions := MaterialOptions(None, None, None, None, Undefined, Undefined)

  /** The material's initial colour. */
  const White := Css("#ffffff")

  /** `MathUtils.clamp(v, lo, hi)`: `max(lo, min(hi, v))`. */
  function Clamp(v: real, lo: real, hi: real): (r: real)
    ensures lo <= hi ==> lo <= r <= hi
    ensures lo <= v <= hi ==> r == v
    ensures v < lo ==> r == lo
    ensures lo <= hi && hi < v ==> r == hi
  {
    var m := if hi < v then hi else v;
    if lo > m then lo else m
  }

  /** A texture slot after `slot = next ?? null` guarded by `next !== undefined`. */
  function NextSlot(option: Nullable<Texture>, current: Texture?): (t: Texture?)
    ensures option.Undefined? ==> t == current
    ensures option.Null? ==> t == null
    ensures option.Value? ==> t == option.v
  {
    match option
    case Undefined => current
    case Null => null
    case Value(tex) => tex
  }

  /** The material properties the options effect writes. */
  datatype Surface = Surface(
    color: ColorLike, emissive: ColorLike, roughness: real, metalness: real,
    textureMap: Texture?, envMap: Texture?)

  function SurfaceOf(m: Material): Surface
    reads m
  {
    Surface(m.color, m.emissive, m.roughness, m.metalness, m.textureMap, m.envMap)
  }

  /** A new material made by `ensureMaterial`: white, with the engine's defaults for the rest. */
  const Initial := Surface(White, Hex(0), 1.0, 0.0, null, null)

  /**
   * The properties after the effect ran with `next`: given colours taken, given roughness and
   * metalness clamped to [0, 1], texture slots per `NextSlot`, everything else kept.
   */
  function Synced(next: MaterialOptions, s: Surface): Surface
  {
    Surface(
      OrDefault(next.color, s.color),
      OrDefault(next.emissive, s.emissive),
      if next.roughness.Some? then Clamp(next.roughness.value, 0.0, 1.0) else s.roughness,
      if next.metalness.Some? then Clamp(next.metalness.value, 0.0, 1.0) else s.metalness,
      NextSlot(next.textureMap, s.textureMap),
      NextSlot(next.envMap, s.envMap))
  }

  /**
   * Running the effect again with the same options changes nothing, and every given roughness
   * and metalness ends in [0, 1].
   */
  lemma SyncedStable(next: MaterialOptions, s: Surface)
    ensures Synced(next, Synced(next, s)) == Synced(next, s)
    ensures next.roughness.Some? ==> 0.0 <= Synced(next, s).roughness <= 1.0
    ensures next.metalness.Some? ==> 0.0 <= Synced(next, s).metalness <= 1.0
  {
  }

  class MaterialState {
    var material: Material?

    constructor ()
      ensures material == null
    {
      material := null;
    }

    /** `ensureMaterial`: made once, white. */
    method EnsureMaterial() returns (instance: Material)
      modifies this`material
      ensures old(material) != null ==> instance == old(material)
      ensures old(material) == null ==>
        fresh(instance) && instance.color == White && instance.textureMap == null && instance.envMap == null
        && instance.disposeCount == 0 && SurfaceOf(instance) == Initial && !instance.needsUpdate
      ensures material == instance
    {
      if material == null {
        material := new Material.Standard(White);
      }
      instance := material;
    }

    /** The colour and surface part of the effect: given colours are set; roughness and metalness clamped to [0, 1]. */
    method SyncSurface(next: MaterialOptions)
      requires material != null
      modifies material`color, material`emissive, material`roughness, material`metalness
      ensures material.color == OrDefault(next.color, old(material.color))
      ensures material.emissive == OrDefault(next.emissive, old(material.emissive))
      ensures next.roughness.Some? ==> material.roughness == Clamp(next.roughness.value, 0.0, 1.0)
      ensures next.roughness.None? ==> material.roughness == old(material.roughness)
      ensures next.metalness.Some? ==> material.metalness == Clamp(next.metalness.value, 0.0, 1.0)
      ensures next.metalness.None? ==> material.metalness == old(material.metalness)
    {
      var instance := material;
      if next.color.Some? {
        instance.color := next.color.value;
      }
      if next.emissive.Some? {
        instance.emissive := next.emissive.value;
      }
      if next.roughness.Some? {
        instance.roughness := Clamp(next.roughness.value, 0.0, 1.0);
      }
      if next.metalness.Some? {
        instance.metalness := Clamp(next.metalness.value, 0.0, 1.0);
      }
    }

    /** The texture part of the effect: `map` and `envMap` follow their options; a defined `envMap` flags `needsUpdate`. */
    method SyncMaps(next: MaterialOptions)
      requires material != null
      modifies material`textureMap, material`envMap, material`needsUpdate
      ensures material.textureMap == NextSlot(next.textureMap, old(material.textureMap))
      ensures material.envMap == NextSlot(next.envMap, old(material.envMap))
      ensures material.needsUpdate == (old(material.needsUpdate) || !next.envMap.Undefined?)
    {
      var instance := material;
      if !next.textureMap.Undefined? {
        instance.textureMap := NextSlot(next.textureMap, instance.textureMap);
      }
      if !next.envMap.Undefined? {
        instance.envMap := NextSlot(next.envMap, instance.envMap);
        instance.needsUpdate := true;
      }
    }

    /** The options effect: the material is made if needed and updated in place; it is never replaced. */
    method Sync(options: Option<MaterialOptions>)
      modifies this`material, MaterialSet(material)
      ensures material != null && (old(material) != null ==> material == old(material))
      ensures old(material) == null ==> fresh(material) && material.disposeCount == 0
      ensures SurfaceOf(material) ==
        Synced(OrDefault(options, NoOptions), if old(material) == null then Initial else old(SurfaceOf(material)))
      ensures material.needsUpdate ==
        (!OrDefault(options, NoOptions).envMap.Undefined? || (old(material) != null && old(material.needsUpdate)))
      ensures old(material) != null ==> material.disposeCount == old(material.disposeCount)
    {
      var next := OrDefault(options, NoOptions);
      var instance := EnsureMaterial();
      SyncSurface(next);
      SyncMaps(next);
    }

    /** `dispose`: disposes and forgets the material; with none there is nothing to do. */
    method Dispose()
      modifies this`material, MaterialSet(material)`disposeCount
      ensures material == null
      ensures old(material) != null ==> old(material).disposeCount == old(material.disposeCount) + 1
    {
      if material != null {
        material.Dispose();
        material := null;
      }
    }
  }
}

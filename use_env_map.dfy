/**
 * `useEnvMap`: loads an environment map (equirectangular, RGBE/HDR or cube), optionally
 * convolves it with a PMREM generator, and keeps only the latest request's result.
 */
module UseEnvMap {
  import opened Common
  import opened Engine
  import opened JsStrings

  /** A typed environment-map source. */
  datatype EnvSource = Rgbe(url: string) | Equirect(url: string) | Cube(urls: seq<string>)

  /** What the caller passes: nothing, a bare URL, or a typed source. */
  datatype EnvInput = NoSource | UrlSource(url: string) | TypedSource(source: EnvSource)

  datatype EnvMapOptions = EnvMapOptions(colorSpace: Option<string>, usePmrem: Option<bool>)

  /** `inferSourceType`: RGBE exactly when the lower-cased URL ends in `.hdr` or `.exr`; the URL is kept. */
  function InferSourceType(source: string): (r: EnvSource)
    ensures !r.Cube? && r.url == source
    ensures r.Rgbe? <==> EndsWith(ToLower(source), ".hdr") || EndsWith(ToLower(source), ".exr")
  {
    var lower := ToLower(source);
    if EndsWith(lower, ".hdr") || EndsWith(lower, ".exr") then Rgbe(source) else Equirect(source)
  }

  /** Any URL ending in `.hdr` or `.exr`, in any letter case, is read as RGBE. */
  lemma RgbeBySuffix(stem: string, ext: string)
    requires ToLower(ext) == ".hdr" || ToLower(ext) == ".exr"
    ensures InferSourceType(stem + ext) == Rgbe(stem + ext)
  {
    ToLowerAppend(stem, ext);
    var lower := ToLower(stem + ext);
    assert lower[|lower| - 4..] == ToLower(ext);
  }

  /** Whether to convolve: `usePmrem` defaults to true, only an explicit `false` turns it off. */
  function ShouldPmrem(options: Option<EnvMapOptions>): (b: bool)
    ensures !b <==> options.Some? && options.value.usePmrem == Some(false)
  {
    if options.Some? && options.value.usePmrem.Some? then options.value.usePmrem.value else true
  }

  class PmremGenerator {
    var shaderCompiled: bool
    var disposeCount: nat

    constructor ()
      ensures !shaderCompiled && disposeCount == 0
    {
      shaderCompiled := false;
      disposeCount := 0;
    }

    method CompileEquirectangularShader()
      modifies this`shaderCompiled
      ensures shaderCompiled
    {
      shaderCompiled := true;
    }

    method Dispose()
      modifies this`disposeCount
      ensures disposeCount == old(disposeCount) + 1
    {
      disposeCount := disposeCount + 1;
    }
  }

  /**
   * The outcome of `convertWithPmrem`: the input returned as is, a convolved result (built
   * with `fromCubemap` when `fromCube`), or the engine's exception, rethrown.
   */
  datatype Conversion =
    | Passthrough
    | Converted(target: Texture, generator: PmremGenerator, fromCube: bool)
    | Threw(generator: PmremGenerator)

  /**
   * `convertWithPmrem`. With no renderer or with PMREM turned off the texture comes back
   * unchanged and undisposed. Otherwise a generator is made, and disposed exactly once whether
   * the conversion succeeds or throws (`engineThrows`); on success the input texture is disposed.
   */
  method ConvertWithPmrem(tex: Texture, isCube: bool, renderer: Option<Renderer>,
                          options: Option<EnvMapOptions>, engineThrows: bool) returns (c: Conversion)
    modifies tex`disposeCount
    ensures renderer == None || !ShouldPmrem(options) <==> c.Passthrough?
    ensures c.Passthrough? ==> tex.disposeCount == old(tex.disposeCount)
    ensures c.Converted? ==>
      && !engineThrows && fresh(c.target) && fresh(c.generator) && c.fromCube == isCube
      && c.generator.shaderCompiled && c.generator.disposeCount == 1
      && c.target.disposeCount == 0 && tex.disposeCount == old(tex.disposeCount) + 1
    ensures c.Threw? ==>
      && engineThrows && fresh(c.generator) && c.generator.disposeCount == 1
      && tex.disposeCount == old(tex.disposeCount)
    ensures !c.Passthrough? ==> (c.Threw? <==> engineThrows)
  {
    if renderer == None || !ShouldPmrem(options) {
      return Passthrough;
    }
    var generator := new PmremGenerator();
    generator.CompileEquirectangularShader();
    if engineThrows {
      generator.Dispose();
      return Threw(generator);
    }
    var target := new Texture();
    tex.Dispose();
    generator.Dispose();
    c := Converted(target, generator, isCube);
  }

  /**
   * `loadTextureByKind` after the engine loaded `loaded`: cube maps get the cube reflection
   * mapping, the others the equirectangular one and `needsUpdate`; then the conversion.
   */
  method PrepareLoaded(source: EnvSource, loaded: Texture, renderer: Option<Renderer>,
                       options: Option<EnvMapOptions>, engineThrows: bool) returns (c: Conversion)
    modifies loaded`mapping, loaded`needsUpdate, loaded`disposeCount
    ensures source.Cube? ==> loaded.mapping == CubeReflectionMapping && loaded.needsUpdate == old(loaded.needsUpdate)
    ensures !source.Cube? ==> loaded.mapping == EquirectangularReflectionMapping && loaded.needsUpdate
    ensures c.Converted? ==> c.fromCube == source.Cube? && loaded.disposeCount == old(loaded.disposeCount) + 1
    ensures !c.Converted? ==> loaded.disposeCount == old(loaded.disposeCount)
    ensures c.Passthrough? <==> renderer == None || !ShouldPmrem(options)
  {
    if source.Cube? {
      loaded.mapping := CubeReflectionMapping;
    } else {
      loaded.mapping := EquirectangularReflectionMapping;
      loaded.needsUpdate := true;
    }
    c := ConvertWithPmrem(loaded, source.Cube?, renderer, options, engineThrows);
  }

  /** The colour space after the options are applied: a truthy option replaces `current`. */
  function EnvColorSpace(options: Option<EnvMapOptions>, current: string): (c: string)
    ensures c != current ==> options.Some? && options.value.colorSpace == Some(c) && c != ""
    ensures options.Some? && options.value.colorSpace.Some? && options.value.colorSpace.value != "" ==>
      c == options.value.colorSpace.value
  {
    if options.Some? && options.value.colorSpace.Some? && options.value.colorSpace.value != ""
    then options.value.colorSpace.value else current
  }

  /** Re-applying the same options leaves the colour space as it is. */
  lemma EnvColorSpaceIdempotent(options: Option<EnvMapOptions>, current: string)
    ensures EnvColorSpace(options, EnvColorSpace(options, current)) == EnvColorSpace(options, current)
  {
  }

  /** `applyEnvMapOptions`: nothing without options; otherwise a truthy colour space, then `needsUpdate`. */
  method ApplyEnvMapOptions(tex: Texture, options: Option<EnvMapOptions>)
    modifies tex`colorSpace, tex`needsUpdate
    ensures tex.colorSpace == EnvColorSpace(options, old(tex.colorSpace))
    ensures tex.needsUpdate == (options.Some? || old(tex.needsUpdate))
  {
    if options == None {
      return;
    }
    if options.value.colorSpace.Some? && options.value.colorSpace.value != "" {
      tex.colorSpace := options.value.colorSpace.value;
    }
    tex.needsUpdate := true;
  }

  class EnvMapLoader {
    var token: nat
    var envMap: Texture?
    var error: Option<LoadError>
    var loading: bool

    /** The installed map has not been disposed. */
    ghost predicate Valid()
      reads this, TextureSet(envMap)
    {
      envMap != null ==> envMap.disposeCount == 0
    }

    constructor ()
      ensures token == 0 && envMap == null && error == None && !loading && Valid()
    {
      token := 0;
      envMap := null;
      error := None;
      loading := false;
    }

    /** `dispose`: bumps the token, disposes the map, clears map, error and loading. */
    method Dispose()
      modifies this, TextureSet(envMap)`disposeCount
      ensures token == old(token) + 1
      ensures envMap == null && error == None && !loading && Valid()
      ensures old(envMap) != null ==> old(envMap).disposeCount == old(envMap.disposeCount) + 1
    {
      token := token + 1;
      if envMap != null {
        envMap.Dispose();
      }
      envMap := null;
      error := None;
      loading := false;
    }

    /** The synchronous start of `load`. */
    method BeginLoad() returns (current: nat)
      modifies this`token, this`loading, this`error
      ensures current == token == old(token) + 1 && loading && error == None
    {
      token := token + 1;
      current := token;
      loading := true;
      error := None;
    }

    /**
     * The request holding `current` produced `tex` (after any conversion). A stale one is
     * disposed; the current one gets the options, is installed, then the previous map is disposed.
     */
    method Complete(current: nat, tex: Texture, options: Option<EnvMapOptions>)
      modifies this`envMap, this`loading, tex`colorSpace, tex`needsUpdate, tex`disposeCount,
               TextureSet(envMap)`disposeCount
      ensures token == old(token) && error == old(error)
      ensures current != token ==>
        envMap == old(envMap) && loading == old(loading) && tex.disposeCount == old(tex.disposeCount) + 1
        && tex.needsUpdate == old(tex.needsUpdate)
      ensures current == token ==> envMap == tex && !loading
      ensures current == token ==>
        tex.colorSpace == EnvColorSpace(options, old(tex.colorSpace)) && tex.needsUpdate == (options.Some? || old(tex.needsUpdate))
      ensures current != token ==> tex.colorSpace == old(tex.colorSpace)
      ensures current == token && old(envMap) != null && old(envMap) != tex ==>
        old(envMap).disposeCount == old(envMap.disposeCount) + 1
      ensures current == token && tex != old(envMap) ==> tex.disposeCount == old(tex.disposeCount)
      ensures old(Valid()) && old(tex.disposeCount) == 0 && tex != old(envMap) ==> Valid()
    {
      if current != token {
        tex.Dispose();
        return;
      }
      ApplyEnvMapOptions(tex, options);
      var previous := envMap;
      envMap := tex;
      if previous != null {
        previous.Dispose();
      }
      loading := false;
    }

    /** The request holding `current` failed (loading or conversion): only the current one records it. */
    method Fail(current: nat, err: LoadError)
      modifies this`error, this`loading
      ensures current == token ==> error == Some(err) && !loading
      ensures current != token ==> error == old(error) && loading == old(loading)
    {
      if current == token {
        error := Some(err);
        loading := false;
      }
    }

    /**
     * `reload` and the source watcher: a missing or empty source disposes; otherwise a load
     * starts, a bare URL typed by `inferSourceType`.
     */
    method Reload(input: EnvInput) returns (request: Option<(nat, EnvSource)>)
      modifies this, TextureSet(envMap)`disposeCount
      ensures input.NoSource? || input == UrlSource("") ==>
        request == None && token == old(token) + 1 && envMap == null && error == None && !loading
        && (old(envMap) != null ==> old(envMap).disposeCount == old(envMap.disposeCount) + 1)
      ensures input.UrlSource? && input.url != "" ==>
        request == Some((token, InferSourceType(input.url))) && loading && error == None
        && token == old(token) + 1 && envMap == old(envMap)
      ensures input.TypedSource? ==>
        request == Some((token, input.source)) && loading && error == None
        && token == old(token) + 1 && envMap == old(envMap)
      ensures old(Valid()) ==> Valid()
    {
      if input.NoSource? || input == UrlSource("") {
        Dispose();
        return None;
      }
      var current := BeginLoad();
      var source := if input.UrlSource? then InferSourceType(input.url) else input.source;
      request := Some((current, source));
    }

    /** The options watcher: re-applies options only when a map exists and the options are defined. */
    method OptionsChanged(next: Option<EnvMapOptions>)
      modifies TextureSet(envMap)`colorSpace, TextureSet(envMap)`needsUpdate
      ensures envMap != null ==>
        envMap.colorSpace == EnvColorSpace(next, old(envMap.colorSpace)) && envMap.needsUpdate == (next.Some? || old(envMap.needsUpdate))
      ensures envMap != null ==> envMap.disposeCount == old(envMap.disposeCount)
    {
      if envMap == null || next == None {
        return;
      }
      ApplyEnvMapOptions(envMap, next);
    }
  }
}

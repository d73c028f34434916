/**
 * `useTexture`: loads a texture from a URL, applies options to it, and keeps only the result
 * of the latest request (a generation counter, `token`).
 */
module UseTexture {
  import opened Common
  import opened Engine

  /** The texture options; `crossOrigin` only configures the loader. */
  datatype TextureOptions = TextureOptions(
    crossOrigin: Option<string>,
    colorSpace: Option<string>,
    generateMipmaps: Option<bool>,
    minFilter: Option<int>,
    magFilter: Option<int>,
    wrapS: Option<int>,
    wrapT: Option<int>,
    anisotropy: Option<real>,
    flipY: Option<bool>)

  /** A string field written only when the option is a non-empty string (JavaScript truthiness). */
  function GivenString(option: Option<string>, current: string): string
  {
    if option.Some? && option.value != "" then option.value else current
  }

  /** A numeric constant written only when it is non-zero (JavaScript truthiness). */
  function GivenConstant(option: Option<int>, current: int): int
  {
    if option.Some? && option.value != 0 then option.value else current
  }

  /** The loader is given the cross-origin setting only when options carry a non-empty one. */
  function LoaderCrossOrigin(options: Option<TextureOptions>): (c: Option<string>)
    ensures c.Some? <==> options.Some? && options.value.crossOrigin.Some? && options.value.crossOrigin.value != ""
    ensures c.Some? ==> c == options.value.crossOrigin
  {
    if options.Some? && options.value.crossOrigin.Some? && options.value.crossOrigin.value != "" then
      options.value.crossOrigin
    else None
  }

  /** The texture fields the options write. */
  datatype TextureSettings = TextureSettings(
    colorSpace: string,
    generateMipmaps: bool,
    flipY: bool,
    anisotropy: real,
    minFilter: int,
    magFilter: int,
    wrapS: int,
    wrapT: int)

  function Settings(tex: Texture): TextureSettings
    reads tex
  {
    TextureSettings(tex.colorSpace, tex.generateMipmaps, tex.flipY, tex.anisotropy,
                    tex.minFilter, tex.magFilter, tex.wrapS, tex.wrapT)
  }

  /** The settings after the options are applied: each given (truthy) option replaces its field. */
  function Configure(options: Option<TextureOptions>, s: TextureSettings): TextureSettings
  {
    if options == None then s
    else
      var o := options.value;
      TextureSettings(
        GivenString(o.colorSpace, s.colorSpace),
        OrDefault(o.generateMipmaps, s.generateMipmaps),
        OrDefault(o.flipY, s.flipY),
        OrDefault(o.anisotropy, s.anisotropy),
        GivenConstant(o.minFilter, s.minFilter),
        GivenConstant(o.magFilter, s.magFilter),
        GivenConstant(o.wrapS, s.wrapS),
        GivenConstant(o.wrapT, s.wrapT))
  }

  /** Re-applying the same options (the options watcher firing again) leaves the settings as they are. */
  lemma ConfigureIdempotent(options: Option<TextureOptions>, s: TextureSettings)
    ensures Configure(options, Configure(options, s)) == Configure(options, s)
    ensures options.Some? && options.value.colorSpace.Some? && options.value.colorSpace.value != "" ==>
      Configure(options, s).colorSpace == options.value.colorSpace.value
  {
  }

  /** `applyTextureOptions`: nothing without options; otherwise the given fields, then `needsUpdate`. */
  method ApplyTextureOptions(tex: Texture, options: Option<TextureOptions>)
    modifies tex
    ensures options == None ==> unchanged(tex)
    ensures options.Some? ==>
      var o := options.value;
      && tex.colorSpace == GivenString(o.colorSpace, old(tex.colorSpace))
      && tex.generateMipmaps == OrDefault(o.generateMipmaps, old(tex.generateMipmaps))
      && tex.flipY == OrDefault(o.flipY, old(tex.flipY))
      && tex.anisotropy == OrDefault(o.anisotropy, old(tex.anisotropy))
      && tex.minFilter == GivenConstant(o.minFilter, old(tex.minFilter))
      && tex.magFilter == GivenConstant(o.magFilter, old(tex.magFilter))
      && tex.wrapS == GivenConstant(o.wrapS, old(tex.wrapS))
      && tex.wrapT == GivenConstant(o.wrapT, old(tex.wrapT))
      && tex.needsUpdate
      && tex.mapping == old(tex.mapping) && tex.disposeCount == old(tex.disposeCount)
    ensures Settings(tex) == Configure(options, old(Settings(tex)))
  {
    if options == None {
      return;
    }
    // Each field keeps its value unless its option is given (and truthy where the source tests truthiness).
    var o := options.value;
    tex.colorSpace := GivenString(o.colorSpace, tex.colorSpace);
    tex.generateMipmaps := OrDefault(o.generateMipmaps, tex.generateMipmaps);
    tex.flipY := OrDefault(o.flipY, tex.flipY);
    tex.anisotropy := OrDefault(o.anisotropy, tex.anisotropy);
    tex.minFilter := GivenConstant(o.minFilter, tex.minFilter);
    tex.magFilter := GivenConstant(o.magFilter, tex.magFilter);
    tex.wrapS := GivenConstant(o.wrapS, tex.wrapS);
    tex.wrapT := GivenConstant(o.wrapT, tex.wrapT);
    tex.needsUpdate := true;
  }

  class TextureLoader {
    var token: nat
    var texture: Texture?
    var error: Option<LoadError>
    var loading: bool

    /** The installed texture has not been disposed. */
    ghost predicate Valid()
      reads this, TextureSet(texture)
    {
      texture != null ==> texture.disposeCount == 0
    }

    constructor ()
      ensures token == 0 && texture == null && error == None && !loading
      ensures Valid()
    {
      token := 0;
      texture := null;
      error := None;
      loading := false;
    }

    /** `isLoading`: whether the latest request is still in flight. */
    function IsLoading(): (b: bool)
      reads this
      ensures b <==> loading
    {
      loading
    }

    /** `dispose`: invalidates every request in flight, disposes the texture and clears the state. */
    method Dispose()
      modifies this, TextureSet(texture)`disposeCount
      ensures token == old(token) + 1
      ensures texture == null && error == None && !loading
      ensures old(texture) != null ==> old(texture).disposeCount == old(texture.disposeCount) + 1
      ensures Valid()
    {
      token := token + 1;
      if texture != null {
        texture.Dispose();
      }
      texture := null;
      error := None;
      loading := false;
    }

    /**
     * The synchronous start of `loadFromUrl`: takes a fresh token, sets `loading`, clears `error`,
     * and says which cross-origin setting the engine's loader gets.
     */
    method BeginLoad(options: Option<TextureOptions>) returns (current: nat, crossOrigin: Option<string>)
      modifies this`token, this`loading, this`error
      ensures current == token == old(token) + 1
      ensures loading && error == None
      ensures crossOrigin == LoaderCrossOrigin(options)
    {
      token := token + 1;
      current := token;
      loading := true;
      error := None;
      crossOrigin := None;
      if options.Some? && options.value.crossOrigin.Some? && options.value.crossOrigin.value != "" {
        crossOrigin := options.value.crossOrigin;
      }
    }

    /**
     * The load holding `current` produced `tex`. A stale result is disposed and changes nothing
     * else; the current one gets the options, is installed, then the previous texture is disposed.
     * Only the current request clears `loading`.
     */
    method Complete(current: nat, tex: Texture, options: Option<TextureOptions>)
      modifies this`texture, this`loading, tex, TextureSet(texture)`disposeCount
      ensures token == old(token) && error == old(error)
      ensures current != token ==>
        && texture == old(texture) && loading == old(loading)
        && tex.disposeCount == old(tex.disposeCount) + 1
        && Settings(tex) == old(Settings(tex)) && tex.needsUpdate == old(tex.needsUpdate)
      ensures current == token ==> texture == tex && !loading && tex.needsUpdate == (options.Some? || old(tex.needsUpdate))
      ensures current == token ==> Settings(tex) == Configure(options, old(Settings(tex)))
      ensures tex.mapping == old(tex.mapping)
      ensures current == token && old(texture) != null && old(texture) != tex ==>
        old(texture).disposeCount == old(texture.disposeCount) + 1
      ensures current == token && tex != old(texture) ==> tex.disposeCount == old(tex.disposeCount)
      ensures old(Valid()) && old(tex.disposeCount) == 0 && tex != old(texture) ==> Valid()
    {
      if current != token {
        tex.Dispose();
        return;
      }
      ApplyTextureOptions(tex, options);
      var previous := texture;
      texture := tex;
      if previous != null {
        previous.Dispose();
      }
      loading := false;
    }

    /** The load holding `current` failed: only the current request records the error and clears `loading`. */
    method Fail(current: nat, err: LoadError)
      modifies this`error, this`loading
      ensures current == token ==> error == Some(err) && !loading
      ensures current != token ==> error == old(error) && loading == old(loading)
    {
      if current == token {
        error := Some(err);
        loading := false;
      }
    }

    /**
     * `reload`, and the source watcher that calls it: no URL or an empty one disposes; any other
     * starts a load and returns its token.
     */
    method Reload(source: Option<string>, options: Option<TextureOptions>) returns (request: Option<(nat, Option<string>)>)
      modifies this, TextureSet(texture)`disposeCount
      ensures source == None || source == Some("") ==>
        request == None && token == old(token) + 1 && texture == null && error == None && !loading
        && (old(texture) != null ==> old(texture).disposeCount == old(texture.disposeCount) + 1)
      ensures source.Some? && source.value != "" ==>
        request == Some((token, LoaderCrossOrigin(options))) && token == old(token) + 1 && loading && error == None
        && texture == old(texture) && (texture != null ==> texture.disposeCount == old(texture.disposeCount))
      ensures old(Valid()) ==> Valid()
    {
      if source == None || source.value == "" {
        Dispose();
        return None;
      }
      var current, crossOrigin := BeginLoad(options);
      request := Some((current, crossOrigin));
    }

    /** The options watcher: re-applies options to the installed texture, if both exist. */
    method OptionsChanged(next: Option<TextureOptions>)
      modifies TextureSet(texture)
      ensures texture == null || next == None ==> texture == old(texture) && (texture != null ==> unchanged(texture))
      ensures texture != null && next.Some? ==>
        && texture.needsUpdate && texture.disposeCount == old(texture.disposeCount)
        && Settings(texture) == Configure(next, old(Settings(texture))) && texture.mapping == old(texture.mapping)
    {
      if texture == null || next == None {
        return;
      }
      ApplyTextureOptions(texture, next);
    }
  }

  /**
   * Two loads in a row: the first result, arriving late, is disposed and never installed; the
   * second is installed and stays undisposed.
   */
  method SupersessionScenario(first: Texture, second: Texture)
    requires first != second && first.disposeCount == 0 && second.disposeCount == 0
    modifies first, second
  {
    var loader := new TextureLoader();
    var r1 := loader.Reload(Some("a.png"), None);
    var r2 := loader.Reload(Some("b.png"), None);
    loader.Complete(r2.value.0, second, None);
    assert loader.texture == second && !loader.loading;
    loader.Complete(r1.value.0, first, None);
    assert loader.texture == second && first.disposeCount == 1 && second.disposeCount == 0;
    assert loader.Valid();
    loader.Dispose();
    assert second.disposeCount == 1 && loader.texture == null;
  }
}

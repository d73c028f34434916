# vhree.js core, modelled in Dafny

vhree.js binds Vue components to a Three.js scene. This project models its core:

- the render loop, which fans each frame out to its callbacks;
- the animation registry, its built-in animations, and the code that resolves animation specs;
- the composables that own engine objects:
  - textures, environment maps and glTF models, each loaded asynchronously;
  - box and sphere geometries;
  - the scene, the perspective camera and the standard material;
  - orbit controls and a directional light.

Composables that change state in place are classes. Their fields are the composable's
closure variables: the `token` counter, the shallow refs, `lastSignature`, `owner` and the
like. Each watcher or effect callback is a method, and the environment may call these methods in any
order. An asynchronous load is split in two halves:

- a synchronous start, which takes a fresh token and returns the request to run;
- a `Complete` or `Fail` method, which receives the token when the engine finishes.

The property that matters most is that only the latest request wins. A stale result is
disposed, and it never replaces the current object.

Engine objects are small classes (module `Engine`, plus a few in the composables' own modules).
They keep only the state the composables read or write. Each has a `disposeCount` field, so a
contract can say exactly how often an object was disposed: once, never, or once per use. A
traversal of a subtree is the sequence of nodes it meets, each node with its kind, its material
slot and its geometry.

Pure code is written as functions with contracts, and lemmas connect them:

- options resolution;
- signatures;
- source-type inference;
- JavaScript `trim` and `toLowerCase`;
- spec resolution.

Some behaviour is recorded on purpose. The camera's options effect clamps `far` only against the
`near` of that moment. Creation takes the options as given. So `near` can end up beyond `far`, and
`UseCamera.NearPassesFarScenario` gives such a sequence. The model keeps this behaviour as written.
Likewise, when the PMREM conversion of an environment map throws, the loaded input texture is not
disposed (`UseEnvMap.ConvertWithPmrem` says so). When `createLoader` rejects after it made a DRACO
or KTX2 decoder, no disposer exists yet and those decoders are never disposed
(`UseGltf.LoaderRejectsScenario`).

## Model

| member | source | states |
|---|---|---|
| RenderLoop.Loop.constructor | src/core/loop.ts:10-12 | a new loop has no callbacks and `lastNow` 0 |
| RenderLoop.Loop.Add | src/core/loop.ts:18-21 | the callback joins the set; adding a registered callback changes nothing |
| RenderLoop.Loop.Remove | src/core/loop.ts:14-16 | the callback leaves the set; removing an absent one changes nothing |
| RenderLoop.Invocations | src/core/loop.ts:33-35 | the fan-out calls every registered callback exactly once (no omissions, no repeats), all with the same `dt` and `now` |
| RenderLoop.Loop.Step | src/core/loop.ts:23-36 | `now` is `timeMs * 0.001` and always becomes `lastNow`; with no callbacks nothing is called; otherwise each callback is called exactly once with `dt` 0 after a reset and `now - lastNow` after |
| RenderLoop.Loop.Reset | src/core/loop.ts:38-40 | `lastNow` returns to 0 and the callbacks are kept |
| RenderLoop.DeltasOfFreshRun | src/core/loop.ts:23-31 | over frames with non-zero timestamps, the first `dt` is 0 from a reset loop (else the gap to `lastNow`), and every later `dt` is the difference of consecutive timestamps in seconds |
| AnimationRegistry.Registry.constructor | src/animations/registry.ts:3 | the registry starts empty |
| AnimationRegistry.Registry.Register | src/animations/registry.ts:5-10 | the name now maps to the factory and every other entry is kept; an empty name is stored as well |
| AnimationRegistry.Registry.RegisterBuiltins | src/animations/builtins.ts:81-84 | `spin`, `rotate`, `bounce` and `pulse` are added on top of what was registered |
| AnimationRegistry.ResolveFactory | src/animations/registry.ts:12-16 | a factory is found exactly when the name is present, non-empty and registered, and it is the registered one |
| AnimationRegistry.ResolveAnimation | src/animations/registry.ts:18-37 | a falsy spec gives nothing; a function is returned as is; a name or record resolves through its factory, with no options or with the record's options; an unknown or empty name gives nothing |
| AnimationRegistry.EmptyNameNeverResolves | src/animations/registry.ts:12-16 | whatever is stored under `""`, an empty name never resolves, as a string or as a record |
| AnimationRegistry.LastRegistrationWins | src/animations/registry.ts:5-16 | re-registering a name changes what specs naming it resolve to, and nothing else |
| AnimationRegistry.SpinRoundTrip | src/animations/builtins.ts:13-20 | resolving `{ name: 'spin', options: { axis: 'x', speed: 2 } }` gives a spin that turns x by 1 at `dt` 0.5, leaves y and z alone, and does nothing paused |
| AnimationBuiltins.AxisOption | src/animations/builtins.ts:14 | a valid axis option is kept; anything else gives y |
| AnimationBuiltins.NumberOption | src/animations/builtins.ts:15 | a numeric option is taken; anything else gives the default |
| AnimationBuiltins.Spin | src/animations/builtins.ts:13-16 | the axis comes from `AxisOption`, the speed is numeric or 1, and no options give spin about y at speed 1 |
| AnimationBuiltins.Rotate | src/animations/builtins.ts:29-32 | each component is the numeric option or 0 |
| AnimationBuiltins.Bounce | src/animations/builtins.ts:49-54 | the axis comes from `AxisOption`; amplitude, frequency and center are each the numeric option of that key or 0.25, 1 and 0 |
| AnimationBuiltins.Pulse | src/animations/builtins.ts:68-72 | amplitude, frequency and base are each the numeric option of that key or 0.15, 1.5 and 1 |
| AnimationBuiltins.BounceKeysIndependent | src/animations/builtins.ts:51-53 | giving one numeric key of `bounce` changes that setting alone |
| AnimationBuiltins.PulseKeysIndependent | src/animations/builtins.ts:69-71 | giving one numeric key of `pulse` changes that setting alone |
| AnimationBuiltins.Instantiate | src/animations/builtins.ts:13-79 | each built-in factory produces its own animation from the options, and a factory produces a built-in animation exactly when it is one of the four built-ins |
| AnimationBuiltins.SpinFrame | src/animations/builtins.ts:17-20 | paused or `dt` 0 changes nothing; otherwise the chosen axis advances by `speed * dt` and the other two are unchanged |
| AnimationBuiltins.RotateFrame | src/animations/builtins.ts:34-39 | paused or `dt` 0 changes nothing; otherwise each axis advances by its rate times `dt`, and a zero rate leaves its axis alone |
| AnimationBuiltins.Play | src/animations/builtins.ts:17-78 | a built-in callback on an object: paused leaves it alone; spin and rotate follow their frame functions; bounce sets the axis position to `center + wave * amplitude`; pulse sets a uniform scale |
| UseAnimation.ToArray | src/animations/useAnimation.ts:7-11 | a falsy spec gives `[]`, an array is kept, and a single spec becomes a one-element array |
| UseAnimation.ResolveAll | src/animations/useAnimation.ts:19-29 | the loop returns exactly the specification sequence `Resolved` and never more entries than it was given |
| UseAnimation.ResolvedIsOrderedFilter | src/animations/useAnimation.ts:22-27 | the result lists, in order, the resolutions of exactly those entries that resolve |
| UseAnimation.ResolvedLength | src/animations/useAnimation.ts:22-27 | nothing is dropped exactly when every entry resolves |
| UseAnimation.SingleSpecResolvesAlike | src/animations/useAnimation.ts:7-29 | one spec and the one-element array of it resolve alike |
| JsStrings.LeadingSpace | src/composables/load/useGLTF.ts:133 | the count of leading whitespace: every character before it is whitespace, and the next is not |
| JsStrings.TrailingSpace | src/composables/load/useGLTF.ts:133 | the same for trailing whitespace |
| JsStrings.Trim | src/composables/load/useGLTF.ts:133 | the result is the input without its ECMAScript-whitespace ends; it is empty exactly when the input is all whitespace, and otherwise starts and ends with non-whitespace |
| JsStrings.TrimIdempotent | src/composables/load/useGLTF.ts:183-188 | trimming twice is trimming once, so `load` does not change the URL `reload` already trimmed |
| JsStrings.ToLower | src/composables/load/useEnvMap.ts:30 | same length, and each character lower-cased |
| JsStrings.ToLowerAppend | src/composables/load/useEnvMap.ts:30-31 | lower-casing distributes over concatenation |
| UseTexture.LoaderCrossOrigin | src/composables/load/useTexture.ts:75-79 | the loader gets a cross-origin setting exactly when the options carry a non-empty one |
| UseTexture.ConfigureIdempotent | src/composables/load/useTexture.ts:124-132 | re-applying the same options leaves the settings as they are, and a truthy colour space is taken |
| UseTexture.ApplyTextureOptions | src/composables/load/useTexture.ts:29-50 | no options leave the texture untouched; otherwise each truthy or well-typed option is written, every other field is kept, and `needsUpdate` is set |
| UseTexture.TextureLoader.constructor | src/composables/load/useTexture.ts:53-56 | no texture, no error, not loading, token 0 |
| UseTexture.TextureLoader.Dispose | src/composables/load/useTexture.ts:58-64 | every request in flight becomes stale, and the texture is disposed once and cleared together with the error and the loading flag |
| UseTexture.TextureLoader.BeginLoad | src/composables/load/useTexture.ts:66-79 | a fresh token is taken, loading is set, the error is cleared, and the loader's cross-origin setting is chosen |
| UseTexture.TextureLoader.Complete | src/composables/load/useTexture.ts:82-92 | a stale result is disposed and its settings and mapping are kept; the current one gets exactly the settings `Configure` gives for the options and is installed, the previous texture is disposed, and the installed texture stays undisposed |
| UseTexture.TextureLoader.Fail | src/composables/load/useTexture.ts:93-100 | only the current request records its error and clears loading |
| UseTexture.TextureLoader.Reload | src/composables/load/useTexture.ts:103-122 | no URL or an empty one disposes; any other starts a load |
| UseTexture.TextureLoader.OptionsChanged | src/composables/load/useTexture.ts:124-132 | without a texture or options the texture is untouched; otherwise its settings become what `Configure` gives, `needsUpdate` is set, and it is not disposed |
| UseTexture.TextureLoader.IsLoading | src/composables/load/useTexture.ts:140 | reports whether the latest request is in flight |
| UseEnvMap.InferSourceType | src/composables/load/useEnvMap.ts:29-34 | a URL is RGBE exactly when its lower-cased form ends in `.hdr` or `.exr`, and equirectangular otherwise; the URL is kept |
| UseEnvMap.RgbeBySuffix | src/composables/load/useEnvMap.ts:29-34 | any URL ending in `.hdr` or `.exr`, in any letter case, is inferred as RGBE |
| UseEnvMap.ShouldPmrem | src/composables/load/useEnvMap.ts:67 | PMREM is used unless `usePmrem` is explicitly false |
| UseEnvMap.EnvColorSpace | src/composables/load/useEnvMap.ts:42-46 | a truthy colour space option is taken, and the colour space changes only to such an option |
| UseEnvMap.EnvColorSpaceIdempotent | src/composables/load/useEnvMap.ts:168-176 | re-applying the same options leaves the colour space as it is |
| UseEnvMap.ConvertWithPmrem | src/composables/load/useEnvMap.ts:65-89 | with no renderer or with PMREM off, the texture passes through untouched; otherwise the generator is disposed exactly once whether the conversion succeeds or throws, and the input is disposed only on success, replaced by a fresh result built from a cube map exactly for cube sources |
| UseEnvMap.PrepareLoaded | src/composables/load/useEnvMap.ts:91-114 | cube maps get the cube reflection mapping; the others get the equirectangular one and `needsUpdate`; then they are converted |
| UseEnvMap.ApplyEnvMapOptions | src/composables/load/useEnvMap.ts:42-48 | the colour space becomes `EnvColorSpace` of the options, and `needsUpdate` is set exactly when options are given |
| UseEnvMap.EnvMapLoader.constructor | src/composables/load/useEnvMap.ts:52-55 | no map, no error, not loading, token 0 |
| UseEnvMap.EnvMapLoader.Dispose | src/composables/load/useEnvMap.ts:57-63 | requests in flight become stale, the map is disposed once, and the state is cleared |
| UseEnvMap.EnvMapLoader.BeginLoad | src/composables/load/useEnvMap.ts:116-122 | a fresh token is taken, loading is set, and the error is cleared |
| UseEnvMap.EnvMapLoader.Complete | src/composables/load/useEnvMap.ts:124-136 | a stale result is disposed and keeps its colour space; the current one gets the colour space the options give and is installed, and the previous map is disposed |
| UseEnvMap.EnvMapLoader.Fail | src/composables/load/useEnvMap.ts:137-144 | only the current request records its error and clears loading |
| UseEnvMap.EnvMapLoader.Reload | src/composables/load/useEnvMap.ts:147-166 | a missing or empty source disposes; a bare URL is typed by `InferSourceType`; a typed source is loaded as given |
| UseEnvMap.EnvMapLoader.OptionsChanged | src/composables/load/useEnvMap.ts:168-176 | with a map, its colour space becomes what the options give and `needsUpdate` is set only when options are given; without options nothing changes; the map is not disposed |
| UseGltf.ExtraKinds | src/composables/load/useGLTF.ts:36-52 | DRACO comes first when a decoder path is given, then KTX2 when a transcoder path is given, and KTX2 probes the renderer exactly when there is one |
| UseGltf.CreateLoader | src/composables/load/useGLTF.ts:28-62 | a fresh loader with the truthy cross-origin setting and the meshopt decoder when one is supplied, plus one fresh, distinct, undisposed handle per extension |
| UseGltf.DisposeExtras | src/composables/load/useGLTF.ts:61 | the disposer disposes every registered extension once per entry |
| UseGltf.DisposeSlot | src/composables/load/useGLTF.ts:70-81 | each material of a slot that has not been seen is disposed once (an array listing one twice disposes it once), and all of them become seen |
| UseGltf.DisposeNode | src/composables/load/useGLTF.ts:88-103 | a mesh, skinned mesh, points, line or line-segments node has its materials and geometry disposed; any other node is left alone |
| UseGltf.DisposeGltf | src/composables/load/useGLTF.ts:64-112 | for a model, every distinct material of a drawn node is disposed exactly once, every geometry once per drawn node using it, and the parser once |
| UseGltf.Failure | src/composables/load/useGLTF.ts:159-172 | the message is `Failed to load GLTF from "<url>": <cause message>`, every part placed; for an `Error` the cause is attached |
| UseGltf.GltfLoader.constructor | src/composables/load/useGLTF.ts:116-119 | no model, no error, not loading, token 0 |
| UseGltf.GltfLoader.Dispose | src/composables/load/useGLTF.ts:121-127 | requests in flight become stale; the model is disposed as `disposeGLTF` does it (each distinct material once, each geometry once per use, the parser once); the state is cleared |
| UseGltf.GltfLoader.Load | src/composables/load/useGLTF.ts:129-141 | the URL is trimmed; a blank one disposes the model fully and clears the error; otherwise a fresh token is taken, loading is set, the error is cleared, and nothing of the model is disposed |
| UseGltf.GltfLoader.Complete | src/composables/load/useGLTF.ts:149-178 | a stale model is disposed fully and the current one keeps everything it does not share with it; a current model replaces the previous one, which is disposed fully, while what only the new model owns stays undisposed; the handles `createLoader` returned are disposed either way |
| UseGltf.GltfLoader.Fail | src/composables/load/useGLTF.ts:159-178 | only the current request records the failure and clears loading; the handles `createLoader` returned, if it returned, are disposed once per entry |
| UseGltf.GltfLoader.Reload | src/composables/load/useGLTF.ts:181-202 | a missing or blank source disposes the model fully and clears the error; otherwise the trimmed URL is loaded and nothing of the model is disposed |
| UseGltf.GltfLoader.OptionsChanged | src/composables/load/useGLTF.ts:204-212 | without a model nothing changes; with one, a blank or missing source disposes it fully, and any other reloads without disposing anything |
| Engine.VisitedMaterialsInclude | src/composables/load/useGLTF.ts:87-105 | a visited node's materials are among the traversal's visited materials |
| Engine.VisitedMaterialsAreUsed | src/composables/geom/useScene.ts:48-58 | a material is visited exactly when it occurs in a visited slot, that is, when its use count is positive |
| Engine.VisitedGeometriesAreUsed | src/composables/geom/useScene.ts:48-58 | a geometry is visited exactly when some visited node uses it |
| UseBoxGeometry.CreateParams | src/composables/geom/useBoxGeometry.ts:21-32 | each dimension and segment count is the given one or 1 |
| UseBoxGeometry.Signature | src/composables/geom/useBoxGeometry.ts:63 | the signature lists the six values, each missing one read as 1 |
| UseBoxGeometry.SignatureExact | src/composables/geom/useBoxGeometry.ts:61-71 | the signature determines the geometry and back, so skipping a rebuild on an equal signature loses nothing |
| UseBoxGeometry.BoxGeometryState.constructor | src/composables/geom/useBoxGeometry.ts:58-77 | without options one default geometry is made and nothing is watched; with options the initial value is built and its signature kept |
| UseBoxGeometry.BoxGeometryState.Apply | src/composables/geom/useBoxGeometry.ts:50-56 | a fresh geometry from the options replaces the current one, which is disposed once |
| UseBoxGeometry.BoxGeometryState.OptionsChanged | src/composables/geom/useBoxGeometry.ts:65-71 | a stopped watcher or an unchanged signature changes nothing; otherwise the geometry is rebuilt and the signature recorded, keeping the invariant that the live geometry is undisposed and matches the signature |
| UseBoxGeometry.BoxGeometryState.Dispose | src/composables/geom/useBoxGeometry.ts:41-48 | the watcher stops and the geometry is disposed once and forgotten; a second call disposes nothing |
| UseSphereGeometry.CreateParams | src/composables/geom/useSphereGeometry.ts:22-42 | radius 1, 32 by 16 segments, phi from 0 over 2π and theta from 0 over π, unless given |
| UseSphereGeometry.Signature | src/composables/geom/useSphereGeometry.ts:73 | the signature lists the seven values, each missing one at its default |
| UseSphereGeometry.SignatureExact | src/composables/geom/useSphereGeometry.ts:68-87 | the signature determines the geometry and back |
| UseSphereGeometry.SphereGeometryState.constructor | src/composables/geom/useSphereGeometry.ts:68-93 | as for the box: one default geometry unwatched, or the initial value built and its signature kept |
| UseSphereGeometry.SphereGeometryState.Apply | src/composables/geom/useSphereGeometry.ts:60-66 | a fresh geometry replaces the current one, which is disposed once |
| UseSphereGeometry.SphereGeometryState.OptionsChanged | src/composables/geom/useSphereGeometry.ts:81-87 | an unchanged signature or a stopped watcher changes nothing; otherwise a rebuild, preserving the invariant |
| UseSphereGeometry.SphereGeometryState.Dispose | src/composables/geom/useSphereGeometry.ts:51-58 | the watcher stops and the geometry is disposed once and forgotten |
| UseScene.Reached | src/composables/geom/useScene.ts:47-65 | the nodes a traversal reaches are a prefix of the subtree, and all of it when nothing throws |
| UseScene.DisposeEach | src/composables/geom/useScene.ts:51-56 | a mesh's material slot is disposed once per entry, repeats included |
| UseScene.DisposeMeshNode | src/composables/geom/useScene.ts:50-58 | a mesh's materials and geometry are disposed; any other node is left alone |
| UseScene.DisposeMeshes | src/composables/geom/useScene.ts:48-59 | the traversal disposes each mesh material entry and each geometry once per mesh reached that uses it |
| UseScene.SceneState.constructor | src/composables/geom/useScene.ts:23-25 | no local scene yet |
| UseScene.SceneState.EnsureLocalScene | src/composables/geom/useScene.ts:27-33 | the local scene is made at most once, and `onCreate` runs exactly when it is made |
| UseScene.SceneState.Current | src/composables/geom/useScene.ts:35-42 | the provider's scene comes first; otherwise the local scene when requested, else none; a local scene made by this call is fresh and empty, with `onCreate` run exactly once if given |
| UseScene.SceneState.Dispose | src/composables/geom/useScene.ts:44-65 | without a local scene nothing happens; otherwise each mesh's material entries and geometry are disposed once per mesh using them, and the scene is cleared and forgotten whatever happens |
| UseCamera.CameraContext.RegisterCameraOwner | src/core/context.ts:22 | issues a fresh owner token |
| UseCamera.CameraContext.SetCamera | src/core/context.ts:23 | records the camera and its owner as set |
| UseCamera.CameraContext.ReleaseCamera | src/core/context.ts:24 | records the camera and its owner as released |
| UseCamera.CameraState.constructor | src/composables/core/useCamera.ts:32-42 | no camera, owner or provider binding; inactive |
| UseCamera.CameraState.EnsureCamera | src/composables/core/useCamera.ts:44-60 | the camera is made once, from the numeric options or 60, 0.1 and 100 taken as given, with aspect 1 and the given or default position and up; the remembered values match it |
| UseCamera.CameraState.SyncProjection | src/composables/core/useCamera.ts:78-95 | a changed fov is taken; a changed near is clamped to at least 0.0001; a changed far to at least the new near plus 0.0001; the remembered values keep matching the camera |
| UseCamera.CameraState.SyncPlacement | src/composables/core/useCamera.ts:97-110 | position and up follow the options or their defaults, and a given target is looked at |
| UseCamera.CameraState.SyncOptions | src/composables/core/useCamera.ts:74-114 | the whole options effect: a new camera takes the options as given (aspect 1, the given target looked at); an existing one takes a changed fov, a clamped changed near and far, and a given target; position and up follow the options; the projection is rebuilt once exactly when fov, near or far changed |
| UseCamera.CameraState.SyncOwnership | src/composables/core/useCamera.ts:116-143 | moving to a new provider releases an active camera from the old one; a fresh owner is registered exactly on a new provider or when none is held; the camera is then set exactly when it should be active and is not, and released in the opposite case; the old provider gets no new owner; without a camera or provider no provider call is made |
| UseCamera.CameraState.Cleanup | src/composables/core/useCamera.ts:144-149 | an active, owned camera is released from its provider and marked inactive; the provider's owners are untouched |
| UseCamera.CameraState.Dispose | src/composables/core/useCamera.ts:62-72 | a bound, owned camera is released, then disposed once, and the camera, owner and binding are forgotten; the provider's owners and the remembered projection values are untouched |
| UseStandardMaterial.Clamp | src/composables/mat/useStandardMaterial.ts:49 | the result lies within the bounds and equals the input when the input already does |
| UseStandardMaterial.NextSlot | src/composables/mat/useStandardMaterial.ts:53-57 | `undefined` keeps the texture slot, `null` clears it, and a texture sets it |
| UseStandardMaterial.SyncedStable | src/composables/mat/useStandardMaterial.ts:40-59 | running the effect again with the same options changes nothing, and a given roughness or metalness ends in [0, 1] |
| UseStandardMaterial.MaterialState.constructor | src/composables/mat/useStandardMaterial.ts:31 | no material yet |
| UseStandardMaterial.MaterialState.EnsureMaterial | src/composables/mat/useStandardMaterial.ts:21-25 | the material is made once, white and without textures |
| UseStandardMaterial.MaterialState.SyncSurface | src/composables/mat/useStandardMaterial.ts:44-51 | given colours are set, and roughness and metalness are clamped to [0, 1] |
| UseStandardMaterial.MaterialState.SyncMaps | src/composables/mat/useStandardMaterial.ts:53-58 | `map` and `envMap` follow their options, and only a defined `envMap` sets `needsUpdate` |
| UseStandardMaterial.MaterialState.Sync | src/composables/mat/useStandardMaterial.ts:40-59 | the material is made if needed and updated in place, never replaced; its colour, emissive, roughness, metalness and texture slots become `Synced` of the options over the previous values (the engine defaults for a new one), and `needsUpdate` is set exactly by a defined `envMap` |
| UseStandardMaterial.MaterialState.Dispose | src/composables/mat/useStandardMaterial.ts:33-38 | the material is disposed once and forgotten; with none there is nothing to do |
| UseDirectionalLight.LightState.constructor | src/composables/light/useDirectionalLight.ts:32-33 | no light yet, and a fresh target object of its own |
| UseDirectionalLight.LightState.Mount | src/composables/light/useDirectionalLight.ts:49-76 | without a scene nothing happens, the target included; otherwise the light is made on first use from the options or white, 1, (3, 3, 3), aimed at the origin, without shadow, and it and its target are then in the scene |
| UseDirectionalLight.LightState.Cleanup | src/composables/light/useDirectionalLight.ts:72-75 | the light and its target leave the scene they were added to |
| UseDirectionalLight.LightState.SyncOptions | src/composables/light/useDirectionalLight.ts:78-94 | given settings are taken, the rest kept, and the intensity is never negative |
| UseDirectionalLight.LightState.Dispose | src/composables/light/useDirectionalLight.ts:35-47 | the light and its target leave the current scene, and the light is disposed once and forgotten |
| UseOrbitControls.ApplyToInstance | src/composables/controls/useOrbitControls.ts:122-139 | each of the nine settings is the given option or kept, so the settings are `Configure` of the old ones; `update` runs once |
| UseOrbitControls.ConfigureIdempotent | src/composables/controls/useOrbitControls.ts:115-141 | re-applying the same options leaves the settings as they are, and no options keep them |
| UseOrbitControls.ControlsState.constructor | src/composables/controls/useOrbitControls.ts:71-75 | no controls, no frame subscription, watching, not disposed, token 0 |
| UseOrbitControls.ControlsState.IsActive | src/composables/controls/useOrbitControls.ts:196 | active exactly when controls exist |
| UseOrbitControls.ControlsState.EnsureFrameSubscription | src/composables/controls/useOrbitControls.ts:91-102 | afterwards a frame callback is registered exactly while damping or auto-rotation is on, and a new one is added only when none was registered |
| UseOrbitControls.ControlsState.DisposeControls | src/composables/controls/useOrbitControls.ts:77-82 | the frame callback stops, and the controls are disposed once and forgotten |
| UseOrbitControls.ControlsState.ApplyOptions | src/composables/controls/useOrbitControls.ts:115-141 | without controls nothing happens; otherwise all nine settings become `Configure` of the options, `update` runs once, and the frame subscription follows the new settings |
| UseOrbitControls.ControlsState.SourcesChanged | src/composables/controls/useOrbitControls.ts:143-161 | a stopped watcher does nothing; a missing camera, renderer or canvas disposes the controls; otherwise a fresh token is taken for the request and the controls stay undisposed |
| UseOrbitControls.ControlsState.Build | src/composables/controls/useOrbitControls.ts:163-171 | after disposal, or for a superseded request, nothing happens; otherwise the old controls are disposed, and fresh ones on that camera and canvas get `Configure` of the options over the engine defaults, with exactly one new frame subscription when they need ticking and none otherwise |
| UseOrbitControls.ControlsState.Dispose | src/composables/controls/useOrbitControls.ts:84-89 | marks the composable disposed, stops the watcher and disposes the controls |

## Left out

- Server-side rendering: the `isClient` guards (which give an empty texture, skip a load, or make orbit controls a no-op) and the development-only console warnings are not modelled.
- Vue's reactivity is not modelled: `toValue` on refs and getters, the scheduling of effects and watchers, and deep watching. Each callback is a method, and a caller may invoke it at any time.
- The engine's asynchronous work is not modelled: module imports, `loadAsync` and the cached orbit-controls constructor promise. Each load returns a request token, and its outcome arrives through `Complete` or `Fail`.
- The calls to Three.js are recorded as field or counter changes, not computed: the projection matrix, `lookAt` orientation, PMREM convolution, render targets and texture decoding.
- RenderLoop.Loop.Step: the order in which a JavaScript `Set` visits its callbacks (insertion order) is not modelled. The contract promises that each callback is called exactly once, in some order.
- AnimationBuiltins.Play: `Math.sin(now * frequency * 2π)` is a parameter `wave`, because the model has no floating-point sine.
- AnimationBuiltins.Rotate: only numeric components are modelled; a non-numeric component that JavaScript's `??` would pass through counts as 0.
- User animation callbacks and user factories are opaque values; what they do when called is not modelled.
- UseGltf.DisposeGltf: the textures released through `parser.getDependencies('texture')` are not modelled, because they are released asynchronously and errors are swallowed. The parser is assumed present.
- UseGltf.CreateLoader: the user's `onModifyLoader` hook is not modelled. For `meshoptDecoder`, the model records only that a decoder was set, not what the user's function returns.
- UseScene.SceneState.Dispose: an engine `dispose` that throws is modelled as the traversal stopping before a given node. The scene is still cleared, as the `finally` block guarantees.
- UseDirectionalLight.LightState.Mount: adding an object to a scene is set union. The engine's reparenting, where `add` removes the object from a previous parent, is not modelled; the cleanup removes the light from its previous scene first.
- Numbers are mathematical reals. The model leaves out NaN, -0 (the string signature of box and sphere geometry writes 0 and -0 alike), infinities other than an unbounded orbit-control `maxDistance`, and floating-point rounding in `timeMs * 0.001`.
- Option fields that are `null` rather than absent are treated as absent. The exception is a material's `map` and `envMap`, where `null` clears the slot.
- JsStrings.ToLower: lower-casing covers ASCII letters only; other Unicode case mappings are left out.
- `src/core/context.ts` only declares the provider's interface, and the provider's implementation is not part of this model. `UseCamera.CameraContext` records the calls the camera composable makes to it.
- The `isLoading` getters of the environment-map and glTF composables read the `loading` field, which their contracts state; useGLTF's `scene` computed is not modelled, because a model is represented by its traversed nodes and not by a scene root.
- UseGltf.GltfLoader.Fail: its `extras` are the handles of a `createLoader` that returned. A `createLoader` that rejects after creating a decoder is represented by `extras == []`, so such decoders stay undisposed, as in the source.

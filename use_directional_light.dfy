/**
 * `useDirectionalLight`: a directional light (with its target object) created in the active scene
 * once one exists, kept in it, updated from its options, and removed when disposed.
 */
module UseDirectionalLight {
  import opened Common
  import opened Engine

  datatype LightOptions = LightOptions(
    color: Option<ColorLike>, intensity: Option<real>, position: Option<Vec3>,
    target: Option<Vec3>, castShadow: Option<bool>)

  const NoOptions := LightOptions(None, None, None, None, None)
  const DefaultColor := Hex(0xffffff)
  const DefaultPosition := Vec3(3.0, 3.0, 3.0)
  const DefaultTarget := Vec3(0.0, 0.0, 0.0)

  class DirectionalLight {
    var color: ColorLike
    var intensity: real
    var position: Vec3
    var castShadow: bool
    var target: Object3D
    var disposeCount: nat

    /** `new DirectionalLight(color, intensity)`: above the origin, no shadow, aimed at a fresh target. */
    constructor (c: ColorLike, i: real)
      ensures color == c && intensity == i && position == Vec3(0.0, 1.0, 0.0) && !castShadow
      ensures fresh(target) && disposeCount == 0
    {
      color := c;
      intensity := i;
      position := Vec3(0.0, 1.0, 0.0);
      castShadow := false;
      target := new Object3D();
      disposeCount := 0;
    }

    method Dispose()
      modifies this`disposeCount
      ensures disposeCount == old(disposeCount) + 1
    {
      disposeCount := disposeCount + 1;
    }
  }

  /** The scene and light the mount effect's cleanup will remove again. */
  datatype Mounted = Mounted(scene: Scene, instance: DirectionalLight)

  function LightSet(l: DirectionalLight?): set<DirectionalLight>
  {
    if l == null then {} else {l}
  }

  function SceneSet(s: Scene?): set<Scene>
  {
    if s == null then {} else {s}
  }

  function MountedScene(m: Option<Mounted>): set<Scene>
  {
    if m.Some? then {m.value.scene} else {}
  }

  class LightState {
    var light: DirectionalLight?
    const targetHelper: Object3D
    var mounted: Option<Mounted>

    /** The light, once made, aims at the composable's own target object. */
    ghost predicate Valid()
      reads this, LightSet(light)
    {
      light != null ==> light.target == targetHelper
    }

    constructor ()
      ensures light == null && mounted == None && fresh(targetHelper) && Valid()
    {
      light := null;
      targetHelper := new Object3D();
      mounted := None;
    }

    /**
     * The mount effect. Without a scene nothing happens. Otherwise the light is made on first
     * use (colour white, intensity 1, at (3, 3, 3), aimed at the origin, no shadow, unless the
     * options say otherwise), and it and its target are in the scene afterwards.
     */
    method Mount(currentScene: Scene?, options: Option<LightOptions>)
      requires Valid()
      modifies this`light, this`mounted, SceneSet(currentScene)`children, targetHelper`position
      ensures Valid()
      ensures currentScene == null ==>
        light == old(light) && mounted == old(mounted) && targetHelper.position == old(targetHelper.position)
      ensures currentScene != null ==>
        && light != null && mounted == Some(Mounted(currentScene, light))
        && currentScene.children == old(currentScene.children) + {light, targetHelper}
      ensures currentScene != null && old(light) != null ==>
        light == old(light) && targetHelper.position == old(targetHelper.position)
      ensures currentScene != null && old(light) == null ==>
        var resolved := OrDefault(options, NoOptions);
        && fresh(light) && light.disposeCount == 0
        && light.color == OrDefault(resolved.color, DefaultColor)
        && light.intensity == OrDefault(resolved.intensity, 1.0)
        && light.position == OrDefault(resolved.position, DefaultPosition)
        && targetHelper.position == OrDefault(resolved.target, DefaultTarget)
        && light.castShadow == OrDefault(resolved.castShadow, false)
    {
      if currentScene == null {
        return;
      }
      if light == null {
        var resolved := OrDefault(options, NoOptions);
        var created := new DirectionalLight(OrDefault(resolved.color, DefaultColor), OrDefault(resolved.intensity, 1.0));
        created.position := OrDefault(resolved.position, DefaultPosition);
        targetHelper.position := OrDefault(resolved.target, DefaultTarget);
        created.target := targetHelper;
        created.castShadow := OrDefault(resolved.castShadow, false);
        light := created;
        currentScene.children := currentScene.children + {created, created.target};
      }
      var instance := light;
      currentScene.children := currentScene.children + {instance, instance.target};
      mounted := Some(Mounted(currentScene, instance));
    }

    /** The mount effect's cleanup: the light and its target leave the scene they were added to. */
    method Cleanup()
      modifies this`mounted, MountedScene(mounted)`children
      ensures mounted == None
      ensures old(mounted).Some? ==>
        old(mounted).value.scene.children
          == old(mounted.value.scene.children) - {old(mounted).value.instance, old(mounted.value.instance.target)}
    {
      if mounted.Some? {
        var scene, instance := mounted.value.scene, mounted.value.instance;
        scene.children := scene.children - {instance};
        scene.children := scene.children - {instance.target};
        mounted := None;
      }
    }

    /**
     * The options effect: with a light, a given colour is set, a given intensity clamped to be
     * non-negative, a given position and target position applied and a given shadow flag set.
     */
    method SyncOptions(options: Option<LightOptions>)
      requires Valid()
      modifies LightSet(light)`color, LightSet(light)`intensity, LightSet(light)`position,
               LightSet(light)`castShadow, targetHelper`position
      ensures Valid()
      ensures light == null ==> targetHelper.position == old(targetHelper.position)
      ensures light != null ==>
        var next := OrDefault(options, NoOptions);
        && light.color == OrDefault(next.color, old(light.color))
        && light.intensity == (if next.intensity.Some? then Max(0.0, next.intensity.value) else old(light.intensity))
        && (next.intensity.Some? ==> light.intensity >= 0.0)
        && light.position == OrDefault(next.position, old(light.position))
        && targetHelper.position == OrDefault(next.target, old(targetHelper.position))
        && light.castShadow == OrDefault(next.castShadow, old(light.castShadow))
    {
      if light == null {
        return;
      }
      var next := OrDefault(options, NoOptions);
      var instance := light;
      if next.color.Some? {
        instance.color := next.color.value;
      }
      if next.intensity.Some? {
        instance.intensity := Max(0.0, next.intensity.value);
      }
      if next.position.Some? {
        instance.position := next.position.value;
      }
      if next.target.Some? {
        instance.target.position := next.target.value;
      }
      if next.castShadow.Some? {
        instance.castShadow := next.castShadow.value;
      }
    }

    /** `dispose`: with a light, it and its target leave the current scene, and it is disposed and forgotten. */
    method Dispose(currentScene: Scene?)
      modifies this`light, SceneSet(currentScene)`children, LightSet(light)`disposeCount
      ensures light == null && Valid()
      ensures old(light) != null && currentScene != null ==>
        currentScene.children == old(currentScene.children) - {old(light), old(light.target)}
      ensures old(light) == null && currentScene != null ==> currentScene.children == old(currentScene.children)
      ensures old(light) != null ==> old(light).disposeCount == old(light.disposeCount) + 1
    {
      if light == null {
        return;
      }
      if currentScene != null {
        currentScene.children := currentScene.children - {light};
        currentScene.children := currentScene.children - {light.target};
      }
      light.Dispose();
      light := null;
    }
  }

  /** A light mounted, re-mounted after its cleanup, then disposed, leaves the scene as it found it. */
  method MountScenario(scene: Scene)
    requires scene.children == {}
    modifies scene`children
  {
    var state := new LightState();
    state.Mount(scene, None);
    var light := state.light;
    assert scene.children == {light, state.targetHelper};
    state.Cleanup();
    assert scene.children == {};
    state.Mount(scene, None);
    assert state.light == light;
    state.Dispose(scene);
    assert scene.children == {};
  }
}

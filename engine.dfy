/**
 * The 3D engine's objects as opaque handles. Each keeps only the fields the library writes
 * and a `disposeCount`, the number of `dispose()` calls it has received. Construction,
 * rendering and the engine's own bookkeeping are not modelled.
 */
module Engine {
  import opened Common

  /** How a texture is sampled; the library only ever sets the two reflection mappings. */
  datatype Mapping = UVMapping | EquirectangularReflectionMapping | CubeReflectionMapping

  class Texture {
    var colorSpace: string
    var generateMipmaps: bool
    var flipY: bool
    var anisotropy: real
    var minFilter: int
    var magFilter: int
    var wrapS: int
    var wrapT: int
    var mapping: Mapping
    var needsUpdate: bool
    var disposeCount: nat

    /** A texture as the engine hands it out (the engine's own defaults). */
    constructor ()
      ensures disposeCount == 0 && !needsUpdate && mapping == UVMapping
    {
      colorSpace := "";
      generateMipmaps := true;
      flipY := true;
      anisotropy := 1.0;
      minFilter := 1008;
      magFilter := 1006;
      wrapS := 1001;
      wrapT := 1001;
      mapping := UVMapping;
      needsUpdate := false;
      disposeCount := 0;
    }

    method Dispose()
      modifies this`disposeCount
      ensures disposeCount == old(disposeCount) + 1
    {
      disposeCount := disposeCount + 1;
    }
  }

  /** The construction parameters a geometry was built from. */
  datatype GeometryParams =
    | BoxParams(width: real, height: real, depth: real,
                widthSegments: real, heightSegments: real, depthSegments: real)
    | SphereParams(radius: real, widthSegments: real, heightSegments: real,
                   phiStart: real, phiLength: real, thetaStart: real, thetaLength: real)
    | LoadedGeometry

  class Geometry {
    const params: GeometryParams
    var disposeCount: nat

    constructor (p: GeometryParams)
      ensures params == p && disposeCount == 0
    {
      params := p;
      disposeCount := 0;
    }

    method Dispose()
      modifies this`disposeCount
      ensures disposeCount == old(disposeCount) + 1
    {
      disposeCount := disposeCount + 1;
    }
  }

  class Material {
    var color: ColorLike
    var emissive: ColorLike
    var roughness: real
    var metalness: real
    var textureMap: Texture?  // the material's `map`
    var envMap: Texture?
    var needsUpdate: bool
    var disposeCount: nat

    /** `new MeshStandardMaterial({ color })`, with the engine's defaults for the rest. */
    constructor Standard(c: ColorLike)
      ensures color == c && textureMap == null && envMap == null && disposeCount == 0
      ensures emissive == Hex(0) && roughness == 1.0 && metalness == 0.0 && !needsUpdate
    {
      color := c;
      emissive := Hex(0);
      roughness := 1.0;
      metalness := 0.0;
      textureMap := null;
      envMap := null;
      needsUpdate := false;
      disposeCount := 0;
    }

    method Dispose()
      modifies this`disposeCount
      ensures disposeCount == old(disposeCount) + 1
    {
      disposeCount := disposeCount + 1;
    }
  }

  /** A plain scene-graph object: position, rotation (Euler angles) and scale. */
  class Object3D {
    var position: Vec3
    var rotation: Vec3
    var scale: Vec3

    constructor ()
      ensures position == Vec3(0.0, 0.0, 0.0) && rotation == Vec3(0.0, 0.0, 0.0)
      ensures scale == Vec3(1.0, 1.0, 1.0)
    {
      position := Vec3(0.0, 0.0, 0.0);
      rotation := Vec3(0.0, 0.0, 0.0);
      scale := Vec3(1.0, 1.0, 1.0);
    }
  }

  /** The kinds of scene-graph node whose material and geometry disposal code looks at. */
  datatype NodeKind = MeshNode | SkinnedMeshNode | PointsNode | LineNode | LineSegmentsNode | OtherNode

  /** `isMesh` holds of meshes and of skinned meshes (a skinned mesh is a mesh). */
  predicate IsMesh(k: NodeKind)
  {
    k == MeshNode || k == SkinnedMeshNode
  }

  /** A node's `material` field: absent, one material, or an array of them. */
  datatype MaterialSlot = NoMaterial | Single(m: Material) | Many(ms: seq<Material>)

  /** One node met by a subtree traversal, with the handles its disposal touches. */
  datatype Node = Node(kind: NodeKind, material: MaterialSlot, geometry: Option<Geometry>)

  function SlotMaterials(s: MaterialSlot): set<Material>
  {
    match s
    case NoMaterial => {}
    case Single(m) => {m}
    case Many(ms) => set m | m in ms
  }

  /** How many times `m` appears in the slot (an array may list a material twice). */
  function SlotOccurrences(s: MaterialSlot, m: Material): nat
  {
    match s
    case NoMaterial => 0
    case Single(x) => if x == m then 1 else 0
    case Many(ms) => multiset(ms)[m]
  }

  /** The geometries of the nodes in `nodes` whose kind satisfies `visit`. */
  function VisitedGeometries(nodes: seq<Node>, visit: NodeKind -> bool): set<Geometry>
  {
    set i | 0 <= i < |nodes| && visit(nodes[i].kind) && nodes[i].geometry.Some? :: nodes[i].geometry.value
  }

  /** The materials of the nodes in `nodes` whose kind satisfies `visit`. */
  function VisitedMaterials(nodes: seq<Node>, visit: NodeKind -> bool): set<Material>
  {
    if nodes == [] then {}
    else
      var last := nodes[|nodes| - 1];
      VisitedMaterials(nodes[..|nodes| - 1], visit)
      + (if visit(last.kind) then SlotMaterials(last.material) else {})
  }

  /** The number of visited nodes whose geometry is `g`. */
  function GeometryUses(nodes: seq<Node>, visit: NodeKind -> bool, g: Geometry): nat
  {
    if nodes == [] then 0
    else
      var last := nodes[|nodes| - 1];
      GeometryUses(nodes[..|nodes| - 1], visit, g)
      + (if visit(last.kind) && last.geometry == Some(g) then 1 else 0)
  }

  /** The number of times `m` appears in the material slots of visited nodes. */
  function MaterialUses(nodes: seq<Node>, visit: NodeKind -> bool, m: Material): nat
  {
    if nodes == [] then 0
    else
      var last := nodes[|nodes| - 1];
      MaterialUses(nodes[..|nodes| - 1], visit, m)
      + (if visit(last.kind) then SlotOccurrences(last.material, m) else 0)
  }

  /** A visited node contributes its materials to the visited set. */
  lemma {:induction false} VisitedMaterialsInclude(nodes: seq<Node>, visit: NodeKind -> bool, i: nat)
    requires i < |nodes| && visit(nodes[i].kind)
    ensures SlotMaterials(nodes[i].material) <= VisitedMaterials(nodes, visit)
    decreases |nodes|
  {
    if i < |nodes| - 1 {
      VisitedMaterialsInclude(nodes[..|nodes| - 1], visit, i);
    }
  }

  /** A material is visited exactly when it appears in some visited slot, that is, when it is used. */
  lemma {:induction false} VisitedMaterialsAreUsed(nodes: seq<Node>, visit: NodeKind -> bool, m: Material)
    ensures m in VisitedMaterials(nodes, visit) <==> MaterialUses(nodes, visit, m) > 0
    ensures m in VisitedMaterials(nodes, visit) <==>
      exists i :: 0 <= i < |nodes| && visit(nodes[i].kind) && m in SlotMaterials(nodes[i].material)
    decreases |nodes|
  {
    if nodes != [] {
      var init := nodes[..|nodes| - 1];
      var last := nodes[|nodes| - 1];
      VisitedMaterialsAreUsed(init, visit, m);
      assert m in SlotMaterials(last.material) <==> SlotOccurrences(last.material, m) > 0;
      if m in VisitedMaterials(init, visit) {
        var i :| 0 <= i < |init| && visit(init[i].kind) && m in SlotMaterials(init[i].material);
        assert nodes[i] == init[i];
      }
      if exists i :: 0 <= i < |nodes| && visit(nodes[i].kind) && m in SlotMaterials(nodes[i].material) {
        var i :| 0 <= i < |nodes| && visit(nodes[i].kind) && m in SlotMaterials(nodes[i].material);
        if i < |init| {
          assert init[i] == nodes[i];
        }
      }
    }
  }

  /** A geometry is visited exactly when some visited node uses it. */
  lemma {:induction false} VisitedGeometriesAreUsed(nodes: seq<Node>, visit: NodeKind -> bool, g: Geometry)
    ensures g in VisitedGeometries(nodes, visit) <==> GeometryUses(nodes, visit, g) > 0
    decreases |nodes|
  {
    if nodes != [] {
      var init := nodes[..|nodes| - 1];
      VisitedGeometriesAreUsed(init, visit, g);
      if g in VisitedGeometries(init, visit) {
        var i :| 0 <= i < |init| && visit(init[i].kind) && init[i].geometry == Some(g);
        assert nodes[i] == init[i];
      }
      if g in VisitedGeometries(nodes, visit) {
        var i :| 0 <= i < |nodes| && visit(nodes[i].kind) && nodes[i].geometry == Some(g);
        if i < |init| {
          assert init[i] == nodes[i];
        }
      }
    }
  }

  /**
   * A scene: the objects added to it (`children`) and the mesh-bearing nodes of its subtree in
   * traversal order (`nodes`).
   */
  class Scene {
    var children: set<object>
    var nodes: seq<Node>

    constructor ()
      ensures children == {} && nodes == []
    {
      children := {};
      nodes := [];
    }
  }

  /** A perspective camera: its projection values, placement and how often its projection was rebuilt. */
  class Camera {
    var fov: real
    var aspect: real
    var near: real
    var far: real
    var position: Vec3
    var up: Vec3
    var lookedAt: Option<Vec3>
    var projectionUpdates: nat
    var disposeCount: nat

    constructor (f: real, a: real, n: real, fa: real)
      ensures fov == f && aspect == a && near == n && far == fa
      ensures position == Vec3(0.0, 0.0, 0.0) && up == Vec3(0.0, 1.0, 0.0) && lookedAt == None
      ensures projectionUpdates == 0 && disposeCount == 0
    {
      fov, aspect, near, far := f, a, n, fa;
      position := Vec3(0.0, 0.0, 0.0);
      up := Vec3(0.0, 1.0, 0.0);
      lookedAt := None;
      projectionUpdates := 0;
      disposeCount := 0;
    }

    method UpdateProjectionMatrix()
      modifies this`projectionUpdates
      ensures projectionUpdates == old(projectionUpdates) + 1
    {
      projectionUpdates := projectionUpdates + 1;
    }

    method Dispose()
      modifies this`disposeCount
      ensures disposeCount == old(disposeCount) + 1
    {
      disposeCount := disposeCount + 1;
    }
  }

  /** A renderer: only whether it has a canvas (`domElement`) matters here. */
  datatype Renderer = Renderer(id: nat, canvas: Option<nat>)

  function TextureSet(t: Texture?): set<Texture>
  {
    if t == null then {} else {t}
  }

  function GeometrySet(g: Geometry?): set<Geometry>
  {
    if g == null then {} else {g}
  }

  function MaterialSet(m: Material?): set<Material>
  {
    if m == null then {} else {m}
  }
}

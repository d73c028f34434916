/**
 * `useScene`: the provider's scene when there is one, otherwise (on request) a local scene made
 * once, whose meshes are disposed with it.
 */
module UseScene {
  import opened Common
  import opened Engine

  function SceneSet(s: Scene?): set<Scene>
  {
    if s == null then {} else {s}
  }

  function MeshMaterials(s: Scene?): set<Material>
    reads SceneSet(s)
  {
    if s == null then {} else VisitedMaterials(s.nodes, IsMesh)
  }

  function MeshGeometries(s: Scene?): set<Geometry>
    reads SceneSet(s)
  {
    if s == null then {} else VisitedGeometries(s.nodes, IsMesh)
  }

  /** The first `k` nodes, or all of them when the traversal is not cut short. */
  function Reached(nodes: seq<Node>, stopAt: Option<nat>): (r: seq<Node>)
    ensures r <= nodes
    ensures stopAt == None ==> r == nodes
  {
    if stopAt.Some? && stopAt.value < |nodes| then nodes[..stopAt.value] else nodes
  }

  /** One material slot of a mesh: every entry of an array is disposed, repeats included. */
  method DisposeEach(slot: MaterialSlot)
    modifies SlotMaterials(slot)`disposeCount
    ensures forall m :: m in SlotMaterials(slot) && old(allocated(m)) ==>
      m.disposeCount == old(m.disposeCount) + SlotOccurrences(slot, m)
  {
    match slot
    case NoMaterial =>
    case Single(m) =>
      m.Dispose();
    case Many(ms) =>
      var j := 0;
      while j < |ms|
        invariant 0 <= j <= |ms|
        invariant forall m :: m in ms && old(allocated(m)) ==>
          m.disposeCount == old(m.disposeCount) + multiset(ms[..j])[m]
      {
        ms[j].Dispose();
        assert ms[..j + 1] == ms[..j] + [ms[j]];
        j := j + 1;
      }
      assert ms[..j] == ms;
  }

  function MeshNodeMaterials(node: Node): set<Material>
  {
    if IsMesh(node.kind) then SlotMaterials(node.material) else {}
  }

  function MeshNodeGeometries(node: Node): set<Geometry>
  {
    if IsMesh(node.kind) && node.geometry.Some? then {node.geometry.value} else {}
  }

  /** The traversal callback on one node: a mesh's materials and geometry are disposed. */
  method DisposeMeshNode(node: Node)
    modifies MeshNodeMaterials(node)`disposeCount, MeshNodeGeometries(node)`disposeCount
    ensures forall m :: m in MeshNodeMaterials(node) && old(allocated(m)) ==>
      m.disposeCount == old(m.disposeCount) + SlotOccurrences(node.material, m)
    ensures forall g :: g in MeshNodeGeometries(node) ==> g.disposeCount == old(g.disposeCount) + 1
  {
    if IsMesh(node.kind) {
      DisposeEach(node.material);
      if node.geometry.Some? {
        node.geometry.value.Dispose();
      }
    }
  }

  /**
   * The traversal of `dispose` over the first `k` nodes: every mesh's material entries and
   * geometry are disposed, once per mesh using them.
   */
  method DisposeMeshes(nodes: seq<Node>, k: nat)
    requires k <= |nodes|
    modifies VisitedMaterials(nodes, IsMesh)`disposeCount, VisitedGeometries(nodes, IsMesh)`disposeCount
    ensures forall m :: m in VisitedMaterials(nodes, IsMesh) && old(allocated(m)) ==>
      m.disposeCount == old(m.disposeCount) + MaterialUses(nodes[..k], IsMesh, m)
    ensures forall g :: g in VisitedGeometries(nodes, IsMesh) && old(allocated(g)) ==>
      g.disposeCount == old(g.disposeCount) + GeometryUses(nodes[..k], IsMesh, g)
  {
    var i := 0;
    while i < k
      invariant 0 <= i <= k
      invariant forall m :: m in VisitedMaterials(nodes, IsMesh) && old(allocated(m)) ==>
        m.disposeCount == old(m.disposeCount) + MaterialUses(nodes[..i], IsMesh, m)
      invariant forall g :: g in VisitedGeometries(nodes, IsMesh) && old(allocated(g)) ==>
        g.disposeCount == old(g.disposeCount) + GeometryUses(nodes[..i], IsMesh, g)
    {
      if IsMesh(nodes[i].kind) {
        VisitedMaterialsInclude(nodes, IsMesh, i);
      }
      assert MeshNodeGeometries(nodes[i]) <= VisitedGeometries(nodes, IsMesh);
      DisposeMeshNode(nodes[i]);
      assert nodes[..i + 1][..i] == nodes[..i];
      i := i + 1;
    }
  }

  class SceneState {
    var localScene: Scene?
    var onCreateCalls: nat
    const createLocal: bool
    const hasOnCreate: bool

    constructor (createLocalOption: bool, onCreateGiven: bool)
      ensures localScene == null && onCreateCalls == 0
      ensures createLocal == createLocalOption && hasOnCreate == onCreateGiven
    {
      localScene := null;
      onCreateCalls := 0;
      createLocal := createLocalOption;
      hasOnCreate := onCreateGiven;
    }

    /** `ensureLocalScene`: the local scene is made once; `onCreate` runs exactly when it is made. */
    method EnsureLocalScene() returns (s: Scene)
      modifies this`localScene, this`onCreateCalls
      ensures old(localScene) != null ==> s == old(localScene) && onCreateCalls == old(onCreateCalls)
      ensures old(localScene) == null ==>
        fresh(s) && s.children == {} && s.nodes == []
        && onCreateCalls == old(onCreateCalls) + (if hasOnCreate then 1 else 0)
      ensures localScene == s
    {
      if localScene == null {
        localScene := new Scene();
        if hasOnCreate {
          onCreateCalls := onCreateCalls + 1;
        }
      }
      s := localScene;
    }

    /** The `scene` computed: the provider's scene first, else the local one when requested, else none. */
    method Current(provided: Scene?) returns (s: Scene?)
      modifies this`localScene, this`onCreateCalls
      ensures provided != null ==>
        s == provided && localScene == old(localScene) && onCreateCalls == old(onCreateCalls)
      ensures provided == null && createLocal ==>
        s != null && s == localScene
        && (old(localScene) != null ==> s == old(localScene) && onCreateCalls == old(onCreateCalls))
        && (old(localScene) == null ==>
              fresh(s) && s.children == {} && s.nodes == []
              && onCreateCalls == old(onCreateCalls) + (if hasOnCreate then 1 else 0))
      ensures provided == null && !createLocal ==>
        s == null && localScene == old(localScene) && onCreateCalls == old(onCreateCalls)
    {
      if provided != null {
        return provided;
      }
      if createLocal {
        s := EnsureLocalScene();
        return;
      }
      return null;
    }

    /**
     * `dispose`: nothing without a local scene. Otherwise its meshes are traversed, each material
     * entry and geometry disposed per mesh using it (`stopAt` cuts the traversal short, standing
     * for a `dispose` that throws); whatever happens the scene is cleared and forgotten.
     */
    method Dispose(stopAt: Option<nat>)
      modifies this`localScene, SceneSet(localScene), MeshMaterials(localScene)`disposeCount,
               MeshGeometries(localScene)`disposeCount
      ensures localScene == null && onCreateCalls == old(onCreateCalls)
      ensures old(localScene) != null ==> old(localScene).children == {} && old(localScene).nodes == []
      ensures old(localScene) != null ==> forall m :: m in old(MeshMaterials(localScene)) && old(allocated(m)) ==>
        m.disposeCount == old(m.disposeCount) + MaterialUses(Reached(old(localScene.nodes), stopAt), IsMesh, m)
      ensures old(localScene) != null ==> forall g :: g in old(MeshGeometries(localScene)) && old(allocated(g)) ==>
        g.disposeCount == old(g.disposeCount) + GeometryUses(Reached(old(localScene.nodes), stopAt), IsMesh, g)
    {
      if localScene == null {
        return;
      }
      var nodes := localScene.nodes;
      var reached := Reached(nodes, stopAt);
      assert reached == nodes[..|reached|];
      DisposeMeshes(nodes, |reached|);
      localScene.children := {};
      localScene.nodes := [];
      localScene := null;
    }
  }
}

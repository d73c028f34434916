/**
 * `useGLTF`: loads a glTF model through a loader configured with optional DRACO and KTX2
 * extensions, keeps only the latest request's model, and disposes what a model owns.
 */
module UseGltf {
  import opened Common
  import opened Engine
  import opened JsStrings

  datatype GltfOptions = GltfOptions(
    crossOrigin: Option<string>,
    dracoDecoderPath: Option<string>,
    ktx2TranscoderPath: Option<string>,
    hasMeshoptDecoder: bool)

  /** A loader extension: a DRACO decoder, or a KTX2 transcoder (which may have probed the renderer). */
  datatype ExtraKind = DracoExtra(decoderPath: string) | Ktx2Extra(transcoderPath: string, supportDetected: bool)

  class LoaderExtra {
    const kind: ExtraKind
    var disposeCount: nat

    constructor (k: ExtraKind)
      ensures kind == k && disposeCount == 0
    {
      kind := k;
      disposeCount := 0;
    }

    method Dispose()
      modifies this`disposeCount
      ensures disposeCount == old(disposeCount) + 1
    {
      disposeCount := disposeCount + 1;
    }
  }

  /** The engine's glTF loader, as configured by `createLoader`. */
  class LoaderInstance {
    var crossOrigin: Option<string>
    var extensions: seq<ExtraKind>
    var meshoptDecoderSet: bool

    constructor ()
      ensures crossOrigin == None && extensions == [] && !meshoptDecoderSet
    {
      crossOrigin := None;
      extensions := [];
      meshoptDecoderSet := false;
    }
  }

  /** A loaded model: the nodes met by traversing all its scenes, and its parser. */
  class Gltf {
    const nodes: seq<Node>
    var parserDisposeCount: nat

    constructor (ns: seq<Node>)
      ensures nodes == ns && parserDisposeCount == 0
    {
      nodes := ns;
      parserDisposeCount := 0;
    }
  }

  function Truthy(s: Option<string>): bool
  {
    s.Some? && s.value != ""
  }

  /**
   * The extensions `createLoader` attaches, in order: DRACO when a decoder path is given, then
   * KTX2 when a transcoder path is given, the latter probing the renderer when there is one.
   */
  function ExtraKinds(options: Option<GltfOptions>, hasRenderer: bool): (ks: seq<ExtraKind>)
    ensures |ks| == (if options.Some? && Truthy(options.value.dracoDecoderPath) then 1 else 0)
                  + (if options.Some? && Truthy(options.value.ktx2TranscoderPath) then 1 else 0)
    ensures options.Some? && Truthy(options.value.dracoDecoderPath) ==>
      ks[0] == DracoExtra(options.value.dracoDecoderPath.value)
    ensures options.Some? && Truthy(options.value.ktx2TranscoderPath) ==>
      ks[|ks| - 1] == Ktx2Extra(options.value.ktx2TranscoderPath.value, hasRenderer)
  {
    if options == None then []
    else
      var o := options.value;
      (if Truthy(o.dracoDecoderPath) then [DracoExtra(o.dracoDecoderPath.value)] else [])
      + (if Truthy(o.ktx2TranscoderPath) then [Ktx2Extra(o.ktx2TranscoderPath.value, hasRenderer)] else [])
  }

  /**
   * `createLoader`: a fresh loader with the truthy cross-origin setting and the meshopt decoder
   * when one is supplied, plus one fresh, undisposed handle per extension, for the disposer.
   */
  method CreateLoader(options: Option<GltfOptions>, hasRenderer: bool)
    returns (loader: LoaderInstance, extras: seq<LoaderExtra>)
    ensures fresh(loader)
    ensures loader.crossOrigin == (if options.Some? && Truthy(options.value.crossOrigin) then options.value.crossOrigin else None)
    ensures loader.meshoptDecoderSet == (options.Some? && options.value.hasMeshoptDecoder)
    ensures loader.extensions == ExtraKinds(options, hasRenderer)
    ensures |extras| == |loader.extensions|
    ensures forall i :: 0 <= i < |extras| ==>
      fresh(extras[i]) && extras[i].kind == loader.extensions[i] && extras[i].disposeCount == 0
    ensures forall i, j :: 0 <= i < j < |extras| ==> extras[i] != extras[j]
  {
    loader := new LoaderInstance();
    extras := [];
    if options.Some? && Truthy(options.value.crossOrigin) {
      loader.crossOrigin := options.value.crossOrigin;
    }
    if options.Some? && Truthy(options.value.dracoDecoderPath) {
      var draco := new LoaderExtra(DracoExtra(options.value.dracoDecoderPath.value));
      loader.extensions := loader.extensions + [draco.kind];
      extras := extras + [draco];
    }
    if options.Some? && Truthy(options.value.ktx2TranscoderPath) {
      var ktx := new LoaderExtra(Ktx2Extra(options.value.ktx2TranscoderPath.value, hasRenderer));
      loader.extensions := loader.extensions + [ktx.kind];
      extras := extras + [ktx];
    }
    if options.Some? && options.value.hasMeshoptDecoder {
      loader.meshoptDecoderSet := true;
    }
  }

  function ExtraSet(extras: seq<LoaderExtra>): set<LoaderExtra>
  {
    set e | e in extras
  }

  /** The disposer returned by `createLoader`: every registered extension handle is disposed once per entry. */
  method DisposeExtras(extras: seq<LoaderExtra>)
    modifies ExtraSet(extras)`disposeCount
    ensures forall e :: e in extras ==> e.disposeCount == old(e.disposeCount) + multiset(extras)[e]
  {
    var j := 0;
    while j < |extras|
      invariant 0 <= j <= |extras|
      invariant forall e :: e in extras ==> e.disposeCount == old(e.disposeCount) + multiset(extras[..j])[e]
    {
      extras[j].Dispose();
      assert extras[..j + 1] == extras[..j] + [extras[j]];
      j := j + 1;
    }
    assert extras[..j] == extras;
  }

  /** The nodes `disposeGLTF` touches: meshes, skinned meshes, points, lines and line segments. */
  predicate Drawn(k: NodeKind)
  {
    k != OtherNode
  }

  function ModelMaterials(model: Gltf?): set<Material>
  {
    if model == null then {} else VisitedMaterials(model.nodes, Drawn)
  }

  function ModelGeometries(model: Gltf?): set<Geometry>
  {
    if model == null then {} else VisitedGeometries(model.nodes, Drawn)
  }

  function GltfSet(model: Gltf?): set<Gltf>
  {
    if model == null then {} else {model}
  }

  /**
   * `disposeMaterial` on one slot: each material of the slot not yet in `seen` is disposed once
   * (an array listing a material twice disposes it once), and all of them join `seen`.
   */
  method DisposeSlot(slot: MaterialSlot, seen: set<Material>) returns (after: set<Material>)
    modifies SlotMaterials(slot)`disposeCount
    ensures after == seen + SlotMaterials(slot)
    ensures forall m :: m in SlotMaterials(slot) ==>
      m.disposeCount == old(m.disposeCount) + (if m in seen then 0 else 1)
  {
    match slot
    case NoMaterial =>
      after := seen;
    case Single(m) =>
      if m !in seen {
        m.Dispose();
      }
      after := seen + {m};
    case Many(ms) =>
      after := seen;
      var j := 0;
      while j < |ms|
        invariant 0 <= j <= |ms|
        invariant after == seen + set x | x in ms[..j]
        invariant forall m :: m in ms ==>
          m.disposeCount == old(m.disposeCount) + (if m in seen || m !in after then 0 else 1)
      {
        assert ms[..j + 1] == ms[..j] + [ms[j]];
        if ms[j] !in after {
          ms[j].Dispose();
        }
        after := after + {ms[j]};
        j := j + 1;
      }
      assert ms[..j] == ms;
  }

  function NodeMaterials(node: Node): set<Material>
  {
    if Drawn(node.kind) then SlotMaterials(node.material) else {}
  }

  function NodeGeometries(node: Node): set<Geometry>
  {
    if Drawn(node.kind) && node.geometry.Some? then {node.geometry.value} else {}
  }

  /** The traversal callback on one node: a drawn node's materials and geometry are disposed. */
  method DisposeNode(node: Node, seen: set<Material>) returns (after: set<Material>)
    modifies NodeMaterials(node)`disposeCount, NodeGeometries(node)`disposeCount
    ensures after == seen + NodeMaterials(node)
    ensures forall m :: m in NodeMaterials(node) ==>
      m.disposeCount == old(m.disposeCount) + (if m in seen then 0 else 1)
    ensures forall g :: g in NodeGeometries(node) ==> g.disposeCount == old(g.disposeCount) + 1
  {
    after := seen;
    if Drawn(node.kind) {
      after := DisposeSlot(node.material, seen);
      if node.geometry.Some? {
        node.geometry.value.Dispose();
      }
    }
  }

  /**
   * `disposeGLTF`: nothing for no model; otherwise every distinct material of a drawn node is
   * disposed exactly once, every geometry once per drawn node using it, and the parser once.
   */
  method DisposeGltf(model: Gltf?)
    modifies ModelMaterials(model)`disposeCount, ModelGeometries(model)`disposeCount,
             GltfSet(model)`parserDisposeCount
    ensures forall m :: m in ModelMaterials(model) && old(allocated(m)) ==> m.disposeCount == old(m.disposeCount) + 1
    ensures model != null ==> forall g :: g in ModelGeometries(model) && old(allocated(g)) ==>
      g.disposeCount == old(g.disposeCount) + GeometryUses(model.nodes, Drawn, g)
    ensures model != null ==> model.parserDisposeCount == old(model.parserDisposeCount) + 1
    ensures Disposed(model)
  {
    if model == null {
      return;
    }
    var nodes := model.nodes;
    var seen: set<Material> := {};
    var i := 0;
    while i < |nodes|
      invariant 0 <= i <= |nodes|
      invariant seen == VisitedMaterials(nodes[..i], Drawn)
      invariant forall m :: m in VisitedMaterials(nodes, Drawn) && old(allocated(m)) ==>
        m.disposeCount == old(m.disposeCount) + (if m in seen then 1 else 0)
      invariant forall g :: g in VisitedGeometries(nodes, Drawn) && old(allocated(g)) ==>
        g.disposeCount == old(g.disposeCount) + GeometryUses(nodes[..i], Drawn, g)
      invariant model.parserDisposeCount == old(model.parserDisposeCount)
    {
      if Drawn(nodes[i].kind) {
        VisitedMaterialsInclude(nodes, Drawn, i);
      }
      assert NodeGeometries(nodes[i]) <= VisitedGeometries(nodes, Drawn);
      seen := DisposeNode(nodes[i], seen);
      assert nodes[..i + 1][..i] == nodes[..i];
      i := i + 1;
    }
    assert nodes[..i] == nodes;
    model.parserDisposeCount := model.parserDisposeCount + 1;
  }

  /** `model` was disposed as `disposeGLTF` does it (nothing happens for no model). */
  twostate predicate Disposed(model: Gltf?)
    reads ModelMaterials(model), ModelGeometries(model), GltfSet(model)
  {
    && (forall m :: m in ModelMaterials(model) && old(allocated(m)) ==> m.disposeCount == old(m.disposeCount) + 1)
    && (model != null ==> forall g :: g in ModelGeometries(model) && old(allocated(g)) ==>
          g.disposeCount == old(g.disposeCount) + GeometryUses(model.nodes, Drawn, g))
    && (model != null ==> model.parserDisposeCount == old(model.parserDisposeCount) + 1)
  }

  /** Nothing `model` owns was disposed, except what it shares with `other`. */
  twostate predicate Untouched(model: Gltf?, other: Gltf?)
    reads ModelMaterials(model), ModelGeometries(model), GltfSet(model)
  {
    && (forall m :: m in ModelMaterials(model) - ModelMaterials(other) && old(allocated(m)) ==>
          m.disposeCount == old(m.disposeCount))
    && (forall g :: g in ModelGeometries(model) - ModelGeometries(other) && old(allocated(g)) ==>
          g.disposeCount == old(g.disposeCount))
    && (model != null && model != other ==> model.parserDisposeCount == old(model.parserDisposeCount))
  }

  /** The error recorded for a failed load: the URL and the cause's message; the cause itself when it was an `Error`. */
  function Failure(url: string, message: string, isError: bool): (e: LoadError)
    ensures e.cause == (if isError then Some(message) else None)
    ensures |e.message| == 29 + |url| + |message|
    ensures e.message[..24] == "Failed to load GLTF from" && e.message[24..26] == " \""
    ensures e.message[26..26 + |url|] == url && e.message[26 + |url|..29 + |url|] == "\": "
    ensures e.message[|e.message| - |message|..] == message
  {
    LoadError("Failed to load GLTF from \"" + url + "\": " + message, if isError then Some(message) else None)
  }

  /** The composable's state. */
  class GltfLoader {
    var token: nat
    var gltf: Gltf?
    var error: Option<LoadError>
    var loading: bool

    constructor ()
      ensures token == 0 && gltf == null && error == None && !loading
    {
      token := 0;
      gltf := null;
      error := None;
      loading := false;
    }

    /** `dispose`: bumps the token, disposes the model, clears model, error and loading. */
    method Dispose()
      modifies this, ModelMaterials(gltf)`disposeCount, ModelGeometries(gltf)`disposeCount,
               GltfSet(gltf)`parserDisposeCount
      ensures token == old(token) + 1 && gltf == null && error == None && !loading
      ensures Disposed(old(gltf))
    {
      token := token + 1;
      DisposeGltf(gltf);
      gltf := null;
      error := None;
      loading := false;
    }

    /**
     * `load`: the URL is trimmed; an empty one disposes; otherwise a fresh token is taken,
     * `loading` set and `error` cleared, and the request to run is returned.
     */
    method Load(url: string) returns (request: Option<(nat, string)>)
      modifies this, ModelMaterials(gltf)`disposeCount, ModelGeometries(gltf)`disposeCount,
               GltfSet(gltf)`parserDisposeCount
      ensures Trim(url) == "" ==>
        request == None && token == old(token) + 1 && gltf == null && error == None && !loading
        && Disposed(old(gltf))
      ensures Trim(url) != "" ==>
        request == Some((token, Trim(url))) && token == old(token) + 1 && loading && error == None
        && gltf == old(gltf) && Untouched(gltf, null)
    {
      var target := Trim(url);
      if target == "" {
        Dispose();
        return None;
      }
      token := token + 1;
      loading := true;
      error := None;
      request := Some((token, target));
    }

    /**
     * The request holding `current` produced `model`. A stale model is disposed and nothing else
     * changes; a current one replaces the previous model, which is disposed, and what only the new
     * model owns stays undisposed. Either way the handles `createLoader` returned are disposed, and
     * only the current request clears `loading`.
     */
    method Complete(current: nat, model: Gltf, extras: seq<LoaderExtra>)
      modifies this`gltf, this`loading, ExtraSet(extras)`disposeCount,
               ModelMaterials(model)`disposeCount, ModelGeometries(model)`disposeCount, model`parserDisposeCount,
               ModelMaterials(gltf)`disposeCount, ModelGeometries(gltf)`disposeCount, GltfSet(gltf)`parserDisposeCount
      ensures token == old(token) && error == old(error)
      ensures current != token ==> gltf == old(gltf) && loading == old(loading)
      ensures current != token ==> Disposed(model) && Untouched(gltf, model)
      ensures current == token ==> gltf == model && !loading
      ensures current == token ==> Disposed(old(gltf)) && Untouched(model, old(gltf))
      ensures forall e :: e in extras ==> e.disposeCount == old(e.disposeCount) + multiset(extras)[e]
    {
      if current != token {
        DisposeGltf(model);
      } else {
        DisposeGltf(gltf);
        gltf := model;
        loading := false;
      }
      DisposeExtras(extras);
    }

    /**
     * The request holding `current` for `url` failed with `message`: only the current one
     * records the failure and clears `loading`. The handles of a `createLoader` that returned are
     * disposed; when `createLoader` itself rejected there are none (`extras` is empty).
     */
    method Fail(current: nat, url: string, message: string, isError: bool, extras: seq<LoaderExtra>)
      modifies this`error, this`loading, ExtraSet(extras)`disposeCount
      ensures current == token ==> error == Some(Failure(url, message, isError)) && !loading
      ensures current != token ==> error == old(error) && loading == old(loading)
      ensures forall e :: e in extras ==> e.disposeCount == old(e.disposeCount) + multiset(extras)[e]
    {
      if current == token {
        error := Some(Failure(url, message, isError));
        loading := false;
      }
      DisposeExtras(extras);
    }

    /**
     * `reload` and the source watcher: a missing or blank source disposes; otherwise the trimmed
     * URL is loaded (and `load`'s own trim leaves it as it is).
     */
    method Reload(source: Option<string>) returns (request: Option<(nat, string)>)
      modifies this, ModelMaterials(gltf)`disposeCount, ModelGeometries(gltf)`disposeCount,
               GltfSet(gltf)`parserDisposeCount
      ensures source == None || Trim(source.value) == "" ==>
        request == None && token == old(token) + 1 && gltf == null && error == None && !loading
        && Disposed(old(gltf))
      ensures source.Some? && Trim(source.value) != "" ==>
        request == Some((token, Trim(source.value))) && token == old(token) + 1 && loading && error == None
        && gltf == old(gltf) && Untouched(gltf, null)
    {
      var normalized := if source.Some? then Trim(source.value) else "";
      if normalized == "" {
        Dispose();
        return None;
      }
      TrimIdempotent(source.value);
      request := Load(normalized);
    }

    /** The options watcher: reloads only while a model is loaded. */
    method OptionsChanged(source: Option<string>) returns (request: Option<(nat, string)>)
      modifies this, ModelMaterials(gltf)`disposeCount, ModelGeometries(gltf)`disposeCount,
               GltfSet(gltf)`parserDisposeCount
      ensures old(gltf) == null ==>
        request == None && token == old(token) && gltf == null && error == old(error) && loading == old(loading)
      ensures old(gltf) != null && (source == None || Trim(source.value) == "") ==>
        request == None && token == old(token) + 1 && gltf == null && error == None && !loading
        && Disposed(old(gltf))
      ensures old(gltf) != null && source.Some? && Trim(source.value) != "" ==>
        request == Some((token, Trim(source.value))) && token == old(token) + 1 && loading && error == None
        && gltf == old(gltf) && Untouched(gltf, null)
    {
      if gltf == null {
        return None;
      }
      request := Reload(source);
    }
  }

  /** Two drawn meshes sharing one material dispose it once; the shared geometry is disposed twice. */
  method SharedMaterialScenario(mat: Material, geo: Geometry)
    modifies mat`disposeCount, geo`disposeCount
  {
    var before := mat.disposeCount;
    var geoBefore := geo.disposeCount;
    var first := Node(MeshNode, Single(mat), Some(geo));
    var second := Node(SkinnedMeshNode, Many([mat, mat]), Some(geo));
    var hidden := Node(OtherNode, Single(mat), Some(geo));
    var nodes := [first, second, hidden];
    assert nodes[..2] == [first, second] && [first, second][..1] == [first] && [first][..0] == [];
    assert SlotMaterials(second.material) == {mat};
    assert VisitedMaterials([first], Drawn) == {mat};
    assert VisitedMaterials([first, second], Drawn) == {mat};
    assert VisitedMaterials(nodes, Drawn) == {mat};
    assert GeometryUses([first], Drawn, geo) == 1;
    assert GeometryUses([first, second], Drawn, geo) == 2;
    assert GeometryUses(nodes, Drawn, geo) == 2;
    var model := new Gltf(nodes);
    DisposeGltf(model);
    assert mat.disposeCount == before + 1;
    assert geo.disposeCount == geoBefore + 2;
  }

  /**
   * `createLoader` made a DRACO decoder and then rejected (say, on the KTX2 import): no disposer
   * was returned, so the failure is recorded and the decoder is never disposed.
   */
  method LoaderRejectsScenario()
  {
    var loader := new GltfLoader();
    assert !IsSpace("m"[0]);
    var request := loader.Load("m");
    var draco := new LoaderExtra(DracoExtra("/draco/"));
    loader.Fail(request.value.0, request.value.1, "import failed", true, []);
    assert loader.error.Some? && loader.error.value.cause == Some("import failed") && !loader.loading;
    assert draco.disposeCount == 0;
  }
}

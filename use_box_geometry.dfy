/**
 * `useBoxGeometry`: a box geometry rebuilt whenever the option signature changes, the
 * previous one disposed.
 */
module UseBoxGeometry {
  import opened Common
  import opened Engine

  datatype BoxOptions = BoxOptions(
    width: Option<real>, height: Option<real>, depth: Option<real>,
    widthSegments: Option<real>, heightSegments: Option<real>, depthSegments: Option<real>)

  /** Where the options come from: none at all (one geometry, no watcher), or a reactive source. */
  datatype OptionsSource = NoOptions | Reactive(initial: Option<BoxOptions>)

  const EmptyOptions := BoxOptions(None, None, None, None, None, None)

  /** `createGeometry`: every dimension and segment count defaults to 1. */
  function CreateParams(options: BoxOptions): (p: GeometryParams)
    ensures p.BoxParams?
    ensures options == EmptyOptions ==> p == BoxParams(1.0, 1.0, 1.0, 1.0, 1.0, 1.0)
    ensures p.width == (if options.width.Some? then options.width.value else 1.0)
    ensures p.height == (if options.height.Some? then options.height.value else 1.0)
    ensures p.depth == (if options.depth.Some? then options.depth.value else 1.0)
    ensures p.widthSegments == (if options.widthSegments.Some? then options.widthSegments.value else 1.0)
    ensures p.heightSegments == (if options.heightSegments.Some? then options.heightSegments.value else 1.0)
    ensures p.depthSegments == (if options.depthSegments.Some? then options.depthSegments.value else 1.0)
  {
    BoxParams(OrDefault(options.width, 1.0), OrDefault(options.height, 1.0), OrDefault(options.depth, 1.0),
              OrDefault(options.widthSegments, 1.0), OrDefault(options.heightSegments, 1.0),
              OrDefault(options.depthSegments, 1.0))
  }

  /** The watched signature: the six values joined with `|`, each missing one read as 1. */
  function Signature(value: Option<BoxOptions>): (s: seq<real>)
    ensures |s| == 6
  {
    var o := if value.Some? then value.value else EmptyOptions;
    [OrDefault(o.width, 1.0), OrDefault(o.height, 1.0), OrDefault(o.depth, 1.0),
     OrDefault(o.widthSegments, 1.0), OrDefault(o.heightSegments, 1.0), OrDefault(o.depthSegments, 1.0)]
  }

  function Resolve(value: Option<BoxOptions>): BoxOptions
  {
    if value.Some? then value.value else EmptyOptions
  }

  /** The geometry a signature stands for. */
  function SignatureParams(s: seq<real>): GeometryParams
    requires |s| == 6
  {
    BoxParams(s[0], s[1], s[2], s[3], s[4], s[5])
  }

  /**
   * The signature carries exactly the parameters: equal signatures mean equal geometries, so
   * skipping a rebuild on an unchanged signature loses nothing, and a changed geometry always
   * changes the signature.
   */
  lemma SignatureExact(a: Option<BoxOptions>, b: Option<BoxOptions>)
    ensures SignatureParams(Signature(a)) == CreateParams(Resolve(a))
    ensures Signature(a) == Signature(b) <==> CreateParams(Resolve(a)) == CreateParams(Resolve(b))
  {
    var sa, sb := Signature(a), Signature(b);
    if CreateParams(Resolve(a)) == CreateParams(Resolve(b)) {
      assert forall i :: 0 <= i < 6 ==> sa[i] == sb[i];
    }
  }

  class BoxGeometryState {
    var geometry: Geometry?
    var watching: bool
    var lastSignature: Option<seq<real>>

    /** The current geometry is undisposed and, while watching, built from the last signature. */
    ghost predicate Valid()
      reads this, GeometrySet(geometry)
    {
      && (geometry != null ==> geometry.disposeCount == 0 && geometry.params.BoxParams?)
      && (watching ==> geometry != null && lastSignature.Some? && |lastSignature.value| == 6
                       && geometry.params == SignatureParams(lastSignature.value))
    }

    /**
     * Without options one default geometry is made and nothing is watched; with a reactive source
     * the immediate watcher run builds from the initial value and records its signature.
     */
    constructor (source: OptionsSource)
      ensures geometry != null && fresh(geometry) && Valid()
      ensures source.NoOptions? ==>
        !watching && lastSignature == None && geometry.params == CreateParams(EmptyOptions)
      ensures source.Reactive? ==>
        watching && lastSignature == Some(Signature(source.initial)) && geometry.params == CreateParams(Resolve(source.initial))
    {
      if source.NoOptions? {
        geometry := new Geometry(CreateParams(EmptyOptions));
        watching := false;
        lastSignature := None;
      } else {
        SignatureExact(source.initial, source.initial);
        geometry := new Geometry(CreateParams(Resolve(source.initial)));
        watching := true;
        lastSignature := Some(Signature(source.initial));
      }
    }

    /** `apply`: a fresh geometry replaces the current one, which is disposed. */
    method Apply(next: BoxOptions)
      modifies this`geometry, GeometrySet(geometry)`disposeCount
      ensures fresh(geometry) && geometry.params == CreateParams(next) && geometry.disposeCount == 0
      ensures old(geometry) != null ==> old(geometry).disposeCount == old(geometry.disposeCount) + 1
    {
      var created := new Geometry(CreateParams(next));
      var previous := geometry;
      geometry := created;
      if previous != null {
        previous.Dispose();
      }
    }

    /** The watcher's callback: nothing once stopped or for an unchanged signature; otherwise a rebuild. */
    method OptionsChanged(value: Option<BoxOptions>)
      modifies this`geometry, this`lastSignature, GeometrySet(geometry)`disposeCount
      ensures !old(watching) || old(lastSignature) == Some(Signature(value)) ==>
        geometry == old(geometry) && lastSignature == old(lastSignature)
        && (geometry != null ==> geometry.disposeCount == old(geometry.disposeCount))
      ensures old(watching) && old(lastSignature) != Some(Signature(value)) ==>
        fresh(geometry) && geometry.params == CreateParams(Resolve(value))
        && lastSignature == Some(Signature(value))
        && (old(geometry) != null ==> old(geometry).disposeCount == old(geometry.disposeCount) + 1)
      ensures old(Valid()) ==> Valid()
    {
      if !watching {
        return;
      }
      var signature := Signature(value);
      if lastSignature == Some(signature) {
        return;
      }
      lastSignature := Some(signature);
      SignatureExact(value, value);
      Apply(Resolve(value));
    }

    /** `dispose`: stops the watcher, disposes the geometry once and forgets it; a second call does nothing more. */
    method Dispose()
      modifies this`watching, this`geometry, GeometrySet(geometry)`disposeCount
      ensures !watching && geometry == null && Valid()
      ensures old(geometry) != null ==> old(geometry).disposeCount == old(geometry.disposeCount) + 1
    {
      watching := false;
      if geometry != null {
        geometry.Dispose();
        geometry := null;
      }
    }
  }

  /** A repeated signature does not rebuild; a changed one does, disposing the old geometry. */
  method RebuildScenario()
  {
    var small := Some(BoxOptions(Some(2.0), None, None, None, None, None));
    var state := new BoxGeometryState(Reactive(small));
    var first := state.geometry;
    state.OptionsChanged(Some(BoxOptions(Some(2.0), Some(1.0), None, None, None, None)));
    assert state.geometry == first;
    state.OptionsChanged(Some(BoxOptions(Some(3.0), None, None, None, None, None)));
    assert state.geometry != first && first.disposeCount == 1;
    assert state.geometry.params.width == 3.0;
    state.Dispose();
    state.Dispose();
    assert first.disposeCount == 1;
  }
}

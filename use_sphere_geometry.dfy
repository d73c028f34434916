/**
 * `useSphereGeometry`: a sphere geometry rebuilt whenever the option signature changes, the
 * previous one disposed.
 */
module UseSphereGeometry {
  import opened Common
  import opened Engine

  /** `Math.PI` as the double closest to pi. */
  const PI: real := 3.141592653589793

  datatype SphereOptions = SphereOptions(
    radius: Option<real>, widthSegments: Option<real>, heightSegments: Option<real>,
    phiStart: Option<real>, phiLength: Option<real>, thetaStart: Option<real>, thetaLength: Option<real>)

  /** Where the options come from: none at all (one geometry, no watcher), or a reactive source. */
  datatype OptionsSource = NoOptions | Reactive(initial: Option<SphereOptions>)

  const EmptyOptions := SphereOptions(None, None, None, None, None, None, None)

  function Resolve(value: Option<SphereOptions>): SphereOptions
  {
    if value.Some? then value.value else EmptyOptions
  }

  /** `createGeometry`: radius 1, 32 by 16 segments, a full sweep (phi over 2 pi, theta over pi). */
  function CreateParams(options: SphereOptions): (p: GeometryParams)
    ensures p.SphereParams?
    ensures options == EmptyOptions ==> p == SphereParams(1.0, 32.0, 16.0, 0.0, 2.0 * PI, 0.0, PI)
    ensures p.radius == (if options.radius.Some? then options.radius.value else 1.0)
    ensures p.widthSegments == (if options.widthSegments.Some? then options.widthSegments.value else 32.0)
    ensures p.heightSegments == (if options.heightSegments.Some? then options.heightSegments.value else 16.0)
    ensures p.phiStart == (if options.phiStart.Some? then options.phiStart.value else 0.0)
    ensures p.phiLength == (if options.phiLength.Some? then options.phiLength.value else 2.0 * PI)
    ensures p.thetaStart == (if options.thetaStart.Some? then options.thetaStart.value else 0.0)
    ensures p.thetaLength == (if options.thetaLength.Some? then options.thetaLength.value else PI)
  {
    SphereParams(OrDefault(options.radius, 1.0), OrDefault(options.widthSegments, 32.0),
                 OrDefault(options.heightSegments, 16.0), OrDefault(options.phiStart, 0.0),
                 OrDefault(options.phiLength, PI * 2.0), OrDefault(options.thetaStart, 0.0),
                 OrDefault(options.thetaLength, PI))
  }

  /** The watched signature: the seven values joined with `|`, each missing one at its default. */
  function Signature(value: Option<SphereOptions>): (s: seq<real>)
    ensures |s| == 7
  {
    var o := Resolve(value);
    [OrDefault(o.radius, 1.0), OrDefault(o.widthSegments, 32.0), OrDefault(o.heightSegments, 16.0),
     OrDefault(o.phiStart, 0.0), OrDefault(o.phiLength, PI * 2.0), OrDefault(o.thetaStart, 0.0),
     OrDefault(o.thetaLength, PI)]
  }

  function SignatureParams(s: seq<real>): GeometryParams
    requires |s| == 7
  {
    SphereParams(s[0], s[1], s[2], s[3], s[4], s[5], s[6])
  }

  /** The signature carries exactly the parameters: equal signatures mean equal geometries and back. */
  lemma SignatureExact(a: Option<SphereOptions>, b: Option<SphereOptions>)
    ensures SignatureParams(Signature(a)) == CreateParams(Resolve(a))
    ensures Signature(a) == Signature(b) <==> CreateParams(Resolve(a)) == CreateParams(Resolve(b))
  {
    var sa, sb := Signature(a), Signature(b);
    if CreateParams(Resolve(a)) == CreateParams(Resolve(b)) {
      assert forall i :: 0 <= i < 7 ==> sa[i] == sb[i];
    }
  }

  class SphereGeometryState {
    var geometry: Geometry?
    var watching: bool
    var lastSignature: Option<seq<real>>

    /** The current geometry is undisposed and, while watching, built from the last signature. */
    ghost predicate Valid()
      reads this, GeometrySet(geometry)
    {
      && (geometry != null ==> geometry.disposeCount == 0 && geometry.params.SphereParams?)
      && (watching ==> geometry != null && lastSignature.Some? && |lastSignature.value| == 7
                       && geometry.params == SignatureParams(lastSignature.value))
    }

    constructor (source: OptionsSource)
      ensures geometry != null && fresh(geometry) && Valid()
      ensures source.NoOptions? ==>
        !watching && lastSignature == None && geometry.params == CreateParams(EmptyOptions)
      ensures source.Reactive? ==>
        watching && lastSignature == Some(Signature(source.initial))
        && geometry.params == CreateParams(Resolve(source.initial))
    {
      if source.NoOptions? {
        geometry := new Geometry(CreateParams(EmptyOptions));
        watching := false;
        lastSignature := None;
      } else {
        SignatureExact(source.initial, source.initial);
        geometry := new Geometry(CreateParams(Resolve(source.initial)));
        watching := true;
        lastSignature := Some(Signature(source.initial));
      }
    }

    /** `apply`: a fresh geometry replaces the current one, which is disposed. */
    method Apply(next: SphereOptions)
      modifies this`geometry, GeometrySet(geometry)`disposeCount
      ensures fresh(geometry) && geometry.params == CreateParams(next) && geometry.disposeCount == 0
      ensures old(geometry) != null ==> old(geometry).disposeCount == old(geometry.disposeCount) + 1
    {
      var created := new Geometry(CreateParams(next));
      var previous := geometry;
      geometry := created;
      if previous != null {
        previous.Dispose();
      }
    }

    /** The watcher's callback: nothing once stopped or for an unchanged signature; otherwise a rebuild. */
    method OptionsChanged(value: Option<SphereOptions>)
      modifies this`geometry, this`lastSignature, GeometrySet(geometry)`disposeCount
      ensures !old(watching) || old(lastSignature) == Some(Signature(value)) ==>
        geometry == old(geometry) && lastSignature == old(lastSignature)
        && (geometry != null ==> geometry.disposeCount == old(geometry.disposeCount))
      ensures old(watching) && old(lastSignature) != Some(Signature(value)) ==>
        fresh(geometry) && geometry.params == CreateParams(Resolve(value))
        && lastSignature == Some(Signature(value))
        && (old(geometry) != null ==> old(geometry).disposeCount == old(geometry.disposeCount) + 1)
      ensures old(Valid()) ==> Valid()
    {
      if !watching {
        return;
      }
      var signature := Signature(value);
      if lastSignature == Some(signature) {
        return;
      }
      lastSignature := Some(signature);
      SignatureExact(value, value);
      Apply(Resolve(value));
    }

    /** `dispose`: stops the watcher, disposes the geometry once and forgets it. */
    method Dispose()
      modifies this`watching, this`geometry, GeometrySet(geometry)`disposeCount
      ensures !watching && geometry == null && Valid()
      ensures old(geometry) != null ==> old(geometry).disposeCount == old(geometry.disposeCount) + 1
    {
      watching := false;
      if geometry != null {
        geometry.Dispose();
        geometry := null;
      }
    }
  }
}

/**
 * `TransformDescription`: position, rotation and scale as stored sequences of
 * `f64`, and the domain `Transform` generated from their first three components.
 */
module TransformDescriptions {

  /** An `f64`, kept as its IEEE-754 bit pattern: values are only copied, never computed on. */
  datatype F64 = F64(bits: bv64)

  type Vec3 = (F64, F64, F64)

  /** The engine's `Transform`, as `Transform::new(pos, rot, scale)` builds it. */
  datatype Transform = Transform(position: Vec3, rotation: Vec3, scale: Vec3)

  datatype TransformDescription = TransformDescription(position: seq<F64>, rotation: seq<F64>, scale: seq<F64>)

  /** `TransformDescription::new`: copies of the three slices. */
  function New(position: seq<F64>, rotation: seq<F64>, scale: seq<F64>): (t: TransformDescription)
    ensures Position(t) == position && Rotation(t) == rotation && Scale(t) == scale
  {
    TransformDescription(position, rotation, scale)
  }

  function Position(t: TransformDescription): seq<F64> {
    t.position
  }

  function Rotation(t: TransformDescription): seq<F64> {
    t.rotation
  }

  function Scale(t: TransformDescription): seq<F64> {
    t.scale
  }

  /** `TransformDescription::default()` as the builder calls it: what a derived
      `Default` gives, three empty vectors. */
  function Default(): (t: TransformDescription)
    ensures |Position(t)| == |Rotation(t)| == |Scale(t)| == 0
  {
    TransformDescription([], [], [])
  }

  /** `generate_transform` indexes `[0]`, `[1]` and `[2]` of each vector and
      panics on a shorter one. */
  predicate CanGenerate(t: TransformDescription) {
    |t.position| >= 3 && |t.rotation| >= 3 && |t.scale| >= 3
  }

  function Triple(s: seq<F64>): Vec3
    requires |s| >= 3
  {
    (s[0], s[1], s[2])
  }

  /** The three-component description a domain transform corresponds to. */
  function Describe(tr: Transform): (t: TransformDescription)
    ensures CanGenerate(t)
  {
    TransformDescription(
      [tr.position.0, tr.position.1, tr.position.2],
      [tr.rotation.0, tr.rotation.1, tr.rotation.2],
      [tr.scale.0, tr.scale.1, tr.scale.2])
  }

  /** `generate_transform`: the transform made of components 0, 1 and 2 of each
      vector; any further components are not used. */
  function GenerateTransform(t: TransformDescription): (tr: Transform)
    requires CanGenerate(t)
    ensures Describe(tr) == TransformDescription(t.position[..3], t.rotation[..3], t.scale[..3])
  {
    Transform(Triple(t.position), Triple(t.rotation), Triple(t.scale))
  }

  /** Describing a transform and generating it again gives the same transform. */
  lemma GenerateAfterDescribe(tr: Transform)
    ensures GenerateTransform(Describe(tr)) == tr
  {
  }

  /** A description with exactly three components per vector is recovered
      from the transform it generates. */
  lemma DescribeAfterGenerate(t: TransformDescription)
    requires |t.position| == |t.rotation| == |t.scale| == 3
    ensures Describe(GenerateTransform(t)) == t
  {
    assert t.position[..3] == t.position;
    assert t.rotation[..3] == t.rotation;
    assert t.scale[..3] == t.scale;
  }

  /** Two descriptions that agree on their first three components generate the
      same transform, whatever else they hold. */
  lemma GenerateIgnoresExtraComponents(a: TransformDescription, b: TransformDescription)
    requires CanGenerate(a) && CanGenerate(b)
    requires a.position[..3] == b.position[..3]
    requires a.rotation[..3] == b.rotation[..3]
    requires a.scale[..3] == b.scale[..3]
    ensures GenerateTransform(a) == GenerateTransform(b)
  {
    assert a.position[0] == a.position[..3][0] && a.position[1] == a.position[..3][1] && a.position[2] == a.position[..3][2];
    assert b.position[0] == b.position[..3][0] && b.position[1] == b.position[..3][1] && b.position[2] == b.position[..3][2];
    assert a.rotation[0] == a.rotation[..3][0] && a.rotation[1] == a.rotation[..3][1] && a.rotation[2] == a.rotation[..3][2];
    assert b.rotation[0] == b.rotation[..3][0] && b.rotation[1] == b.rotation[..3][1] && b.rotation[2] == b.rotation[..3][2];
    assert a.scale[0] == a.scale[..3][0] && a.scale[1] == a.scale[..3][1] && a.scale[2] == a.scale[..3][2];
    assert b.scale[0] == b.scale[..3][0] && b.scale[1] == b.scale[..3][1] && b.scale[2] == b.scale[..3][2];
  }
}

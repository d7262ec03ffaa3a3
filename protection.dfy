/** The climbing-protection inventory: ropes, nuts, cam sizes and ice screws.
    As in `Topo`, each constructor turns a partial record into a total one. */
module Protection {
  import opened Wrappers
  import opened Js

  /** A rope: diameter in millimetres, length in metres. */
  datatype Rope = Rope(diameter: real, length: real) {
    function AsPatch(): RopePatch {
      RopePatch(Some(diameter), Some(length))
    }
  }

  datatype RopePatch = RopePatch(diameter: Option<real>, length: Option<real>)

  /** `new Rope(data)`: a missing diameter or length becomes 0. */
  function NewRope(data: Option<RopePatch>): (r: Rope)
    ensures data.None? ==> r == Rope(0.0, 0.0)
    ensures data.Some? ==> r == Rope(data.value.diameter.GetOr(0.0), data.value.length.GetOr(0.0))
  {
    match data
    case None => Rope(0.0, 0.0)
    case Some(d) => Rope(OrNum(d.diameter, 0.0), OrNum(d.length, 0.0))
  }

  /** `patches.map(rope => new Rope(rope))`. */
  function NewRopes(patches: seq<RopePatch>): (ropes: seq<Rope>)
    ensures |ropes| == |patches|
    ensures forall i :: 0 <= i < |patches| ==> ropes[i] == NewRope(Some(patches[i]))
  {
    seq(|patches|, i requires 0 <= i < |patches| => NewRope(Some(patches[i])))
  }

  /** `ropes` spread back into constructor arguments. */
  function RopePatches(ropes: seq<Rope>): (patches: seq<RopePatch>)
    ensures |patches| == |ropes|
    ensures forall i :: 0 <= i < |ropes| ==> patches[i] == ropes[i].AsPatch()
  {
    seq(|ropes|, i requires 0 <= i < |ropes| => ropes[i].AsPatch())
  }

  datatype Protections = Protections(ropes: seq<Rope>, nuts: int, cams: seq<real>, screws: int) {
    function AsPatch(): ProtectionsPatch {
      ProtectionsPatch(Some(RopePatches(ropes)), Some(nuts), Some(cams), Some(screws))
    }
  }

  datatype ProtectionsPatch = ProtectionsPatch(
    ropes: Option<seq<RopePatch>>, nuts: Option<int>, cams: Option<seq<real>>, screws: Option<int>)

  /** The inventory of a fresh form: one zero rope, one zero cam, no nuts and
      no screws. */
  const DefaultProtections := Protections([Rope(0.0, 0.0)], 0, [0.0], 0)

  /** `new Protections(data)`.  An absent rope list gives exactly one default
      rope; a provided one, even empty, keeps its length and order with each
      rope repaired.  An absent cam list gives `[0]`; a provided one, even
      empty, is kept as it is (an array is never falsy).  Nuts and screws
      default to 0. */
  function NewProtections(data: Option<ProtectionsPatch>): (p: Protections)
    ensures data.None? ==> p == DefaultProtections
    ensures data.Some? && data.value.ropes.None? ==> p.ropes == [Rope(0.0, 0.0)]
    ensures data.Some? && data.value.ropes.Some? ==>
      |p.ropes| == |data.value.ropes.value|
      && forall i :: 0 <= i < |p.ropes| ==> p.ropes[i] == NewRope(Some(data.value.ropes.value[i]))
    ensures data.Some? ==> p.cams == data.value.cams.GetOr([0.0])
    ensures data.Some? ==> p.nuts == data.value.nuts.GetOr(0) && p.screws == data.value.screws.GetOr(0)
  {
    match data
    case None => Protections([NewRope(None)], 0, [0.0], 0)
    case Some(d) =>
      Protections(
        if d.ropes.Some? then NewRopes(d.ropes.value) else [NewRope(None)],
        OrInt(d.nuts, 0),
        d.cams.GetOr([0.0]),
        OrInt(d.screws, 0))
  }

  /** Constructing from an existing inventory reproduces it field for field. */
  lemma {:induction false} ProtectionsIdempotent(p: Protections)
    ensures NewProtections(Some(p.AsPatch())) == p
  {
    var q := NewProtections(Some(p.AsPatch()));
    assert q.ropes == p.ropes by {
      forall i | 0 <= i < |p.ropes|
        ensures q.ropes[i] == p.ropes[i]
      {
        assert RopePatches(p.ropes)[i] == p.ropes[i].AsPatch();
      }
    }
  }
}

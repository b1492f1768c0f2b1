/** Depth-to-layer lookup over an ordered soil profile: the first layer whose
    half-open interval [from, to) holds the depth, else the last layer, else
    nothing (an empty dictionary in the source) when the profile is empty. */
module LayerLookup {
  import opened Numerics
  import opened Curves

  predicate Holds(layer: Layer, z: real) { layer.fromM <= z < layer.toM }

  /** Index of the first layer that holds z, or |profile| when none does. */
  function FirstHolding(profile: seq<Layer>, z: real): (k: nat)
    ensures k <= |profile|
    ensures k < |profile| ==> Holds(profile[k], z)
    ensures forall j :: 0 <= j < k ==> !Holds(profile[j], z)
  {
    if profile == [] then 0
    else if Holds(profile[0], z) then 0
    else
      var k := 1 + FirstHolding(profile[1..], z);
      assert forall j :: 1 <= j < k ==> profile[j] == profile[1..][j - 1];
      k
  }

  /** The layer used at depth z. */
  function LayerAt(profile: seq<Layer>, z: real): (r: Option<Layer>)
    ensures r.None? <==> profile == []
    ensures forall k ::
              (0 <= k < |profile| && Holds(profile[k], z) && forall j :: 0 <= j < k ==> !Holds(profile[j], z))
              ==> r == Some(profile[k])
    ensures profile != [] && (forall k :: 0 <= k < |profile| ==> !Holds(profile[k], z)) ==>
              r == Some(profile[|profile| - 1])
    ensures r.Some? ==> r.value in profile
  {
    var k := FirstHolding(profile, z);
    if k < |profile| then Some(profile[k])
    else if profile == [] then None
    else Some(profile[|profile| - 1])
  }

  /** get_layer_for_z: a linear scan returning at the first match. */
  method GetLayerForZ(profile: seq<Layer>, z: real) returns (r: Option<Layer>)
    ensures r == LayerAt(profile, z)
  {
    for i := 0 to |profile|
      invariant forall j :: 0 <= j < i ==> !Holds(profile[j], z)
    {
      if profile[i].fromM <= z < profile[i].toM {
        return Some(profile[i]);
      }
    }
    if profile == [] {
      r := None;
    } else {
      r := Some(profile[|profile| - 1]);
    }
  }
}

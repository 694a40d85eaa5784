/**
 * The connectivity used by morphological segmentation: face-adjacent
 * neighbours only (6 in 3D) or all surrounding voxels (26 in 3D).
 */
module Connectivity {

  datatype Connectivity = Straight | Diagonal

  /** The 3D neighbourhood size of a connectivity. */
  function GetConnectivity(c: Connectivity): (n: int)
    ensures n == 6 || n == 26
    ensures ValueFor(n) == c
  {
    match c
    case Straight => 6
    case Diagonal => 26
  }

  /** The display name of a connectivity. */
  function ToString(c: Connectivity): (s: string)
    ensures c == Straight ==> s == "straight"
    ensures c == Diagonal ==> s == "diagonal"
  {
    match c
    case Straight => "straight"
    case Diagonal => "diagonal"
  }

  /**
   * The connectivity for a neighbourhood size. Total: only 6 selects
   * `Straight`; every other integer, valid or not, selects `Diagonal`.
   */
  function ValueFor(conn: int): (c: Connectivity)
    ensures c == Straight <==> conn == 6
  {
    if conn == 6 then Straight else Diagonal
  }

  lemma GetConnectivityValues()
    ensures GetConnectivity(Straight) == 6 && GetConnectivity(Diagonal) == 26
  {
  }

  /** Going from an integer to a connectivity and back is the identity exactly on {6, 26}. */
  lemma ReverseRoundTrip(conn: int)
    ensures GetConnectivity(ValueFor(conn)) == conn <==> conn == 6 || conn == 26
  {
  }

  /** The display names are distinct, so a name identifies its constant. */
  lemma ToStringInjective(a: Connectivity, b: Connectivity)
    ensures ToString(a) == ToString(b) <==> a == b
  {
    if a != b {
      assert ToString(a)[0] != ToString(b)[0];
    }
  }
}

// The two coordinate transforms between the Nether and the Overworld, on
// integer axes. For an integer v, Math.floor(v * 8) is 8 * v, and
// Math.floor(v / 8) is floor division, which is what Dafny's `/` computes for
// the positive divisor 8; so the transforms below are exact for integers.

module Conversion {

  /** One Nether block spans this many Overworld blocks along x and z. */
  const Ratio: int := 8

  datatype Point = Point(x: int, y: int, z: int)

  /** One horizontal axis from the Nether to the Overworld: Math.floor(v * 8). */
  function ScaleUp(v: int): (r: int)
    ensures r % Ratio == 0 && r / Ratio == v
  {
    v * Ratio
  }

  /** One horizontal axis from the Overworld to the Nether: Math.floor(v / 8),
      the unique r with 8 * r <= v < 8 * r + 8. */
  function ScaleDown(v: int): (r: int)
    ensures Ratio * r <= v < Ratio * r + Ratio
  {
    v / Ratio
  }

  /** convertNetherToOverworld: x and z scaled up by 8, y unchanged. */
  function NetherToOverworld(p: Point): (q: Point)
    ensures q.x == 8 * p.x && q.y == p.y && q.z == 8 * p.z
  {
    Point(ScaleUp(p.x), p.y, ScaleUp(p.z))
  }

  /** convertOverworldToNether: x and z floor-divided by 8, y unchanged. */
  function OverworldToNether(p: Point): (q: Point)
    ensures 8 * q.x <= p.x < 8 * q.x + 8
    ensures q.y == p.y
    ensures 8 * q.z <= p.z < 8 * q.z + 8
  {
    Point(ScaleDown(p.x), p.y, ScaleDown(p.z))
  }

  /** ScaleDown is determined by its bounds: any r with 8r <= v < 8r + 8 is it. */
  lemma ScaleDownUnique(v: int, r: int)
    requires Ratio * r <= v < Ratio * r + Ratio
    ensures ScaleDown(v) == r
  {
  }

  /** Going to the Overworld and back is the identity on every integer point. */
  lemma RoundTrip(p: Point)
    ensures OverworldToNether(NetherToOverworld(p)) == p
  {
  }

  /** Going to the Nether and back yields, on x and z, the largest multiple of
      8 not exceeding the original value; y is unchanged. */
  lemma ReverseRoundTrip(p: Point)
    ensures var q := NetherToOverworld(OverworldToNether(p));
      && q.y == p.y
      && q.x % 8 == 0 && q.x <= p.x < q.x + 8
      && q.z % 8 == 0 && q.z <= p.z < q.z + 8
      && (forall m :: m % 8 == 0 && m <= p.x ==> m <= q.x)
      && (forall m :: m % 8 == 0 && m <= p.z ==> m <= q.z)
  {
  }

  /** The reverse round trip is the identity exactly on the points whose x and z
      are multiples of 8. */
  lemma ReverseRoundTripIdentity(p: Point)
    ensures NetherToOverworld(OverworldToNether(p)) == p <==> p.x % 8 == 0 && p.z % 8 == 0
  {
  }

  /** Each output axis depends only on the same input axis. */
  lemma AxesIndependent(p: Point, p': Point)
    ensures p.x == p'.x ==> NetherToOverworld(p).x == NetherToOverworld(p').x && OverworldToNether(p).x == OverworldToNether(p').x
    ensures p.y == p'.y ==> NetherToOverworld(p).y == NetherToOverworld(p').y && OverworldToNether(p).y == OverworldToNether(p').y
    ensures p.z == p'.z ==> NetherToOverworld(p).z == NetherToOverworld(p').z && OverworldToNether(p).z == OverworldToNether(p').z
  {
  }

  /** Overworld to Nether never decreases along x or z when the input grows. */
  lemma OverworldToNetherMonotone(p: Point, p': Point)
    requires p.x <= p'.x && p.z <= p'.z
    ensures OverworldToNether(p).x <= OverworldToNether(p').x
    ensures OverworldToNether(p).z <= OverworldToNether(p').z
  {
  }

  /** Signs: the Nether value is negative exactly when the Overworld value is,
      and zero exactly for the Overworld values 0 through 7. */
  lemma ScaleDownSign(v: int)
    ensures ScaleDown(v) < 0 <==> v < 0
    ensures ScaleDown(v) == 0 <==> 0 <= v < 8
  {
  }

  /** The worked cases: (10, 64, -3) goes to (80, 64, -24) and back, and -3
      goes down to -1 rather than to 0. */
  lemma Examples()
    ensures NetherToOverworld(Point(10, 64, -3)) == Point(80, 64, -24)
    ensures OverworldToNether(Point(80, 64, -24)) == Point(10, 64, -3)
    ensures OverworldToNether(Point(-3, 64, -3)) == Point(-1, 64, -1)
  {
  }
}

/**
 * The four roads that can meet at the intersection, as an enumeration and as
 * the unit vectors the program stores in `all_sides`.
 */
module Compass {
  import opened Geometry
  import opened Results

  datatype Dir = North | East | South | West

  /** The unit vector pointing from the centre out along road `d`. */
  function Vector(d: Dir): Side
  {
    match d
    case North => Side(0.0, 1.0)
    case East => Side(1.0, 0.0)
    case South => Side(0.0, -1.0)
    case West => Side(-1.0, 0.0)
  }

  /** The direction a vector names, if it is one of the four compass vectors. */
  function DirOf(v: Side): (r: Option<Dir>)
    ensures r.Some? ==> Vector(r.value) == v
  {
    if SameSide(v, Side(0.0, 1.0)) then Some(North)
    else if SameSide(v, Side(1.0, 0.0)) then Some(East)
    else if SameSide(v, Side(0.0, -1.0)) then Some(South)
    else if SameSide(v, Side(-1.0, 0.0)) then Some(West)
    else None
  }

  /** The program's `all_sides`, in its order: north, east, south, west. */
  const AllSides: seq<Side> := [Vector(North), Vector(East), Vector(South), Vector(West)]

  /*
   * The frame of road `d`: a point's distance out from the centre along the
   * road, and its offset across the road to the right of a driver coming in
   * on it (to the left of one going out).
   */

  /** Distance of `p` from the centre, measured along road `d`. */
  function Along(p: Side, d: Dir): real {
    match d
    case North => p.y
    case East => p.x
    case South => -p.y
    case West => -p.x
  }

  /** Offset of `p` from road `d`'s centre line, to the right of an incoming driver. */
  function Across(p: Side, d: Dir): real {
    match d
    case North => -p.x
    case East => p.y
    case South => p.x
    case West => -p.y
  }

  /** The point at distance `along` on road `d`, offset `across` to the incoming driver's right. */
  function InFrame(d: Dir, along: real, across: real): Side {
    match d
    case North => Side(-across, along)
    case East => Side(along, across)
    case South => Side(across, -along)
    case West => Side(-along, -across)
  }

  /** Road-frame coordinates and points determine each other. */
  lemma FrameRoundTrip(p: Side, d: Dir, along: real, across: real)
    ensures InFrame(d, Along(p, d), Across(p, d)) == p
    ensures Along(InFrame(d, along, across), d) == along
    ensures Across(InFrame(d, along, across), d) == across
  {}

  /** The road's own unit vector lies at distance 1 on its centre line. */
  lemma VectorInFrame(d: Dir)
    ensures Vector(d) == InFrame(d, 1.0, 0.0)
  {}

  /** `DirOf` inverts `Vector`, so distinct directions have distinct vectors. */
  lemma DirOfVector(d: Dir)
    ensures DirOf(Vector(d)) == Some(d)
  {
    match d
    case North =>
    case East =>
    case South =>
    case West =>
  }

  /** A vector is one of `AllSides` exactly when it names a direction. */
  lemma AllSidesAreTheCompass(v: Side)
    ensures v in AllSides <==> DirOf(v).Some?
    ensures |AllSides| == 4
    ensures forall i, j :: 0 <= i < j < |AllSides| ==> AllSides[i] != AllSides[j]
  {
    if v in AllSides {
      var i :| 0 <= i < 4 && AllSides[i] == v;
      DirOfVector([North, East, South, West][i]);
    }
  }
}

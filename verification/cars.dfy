/**
 * Cars and the fixed waypoint table that gives each car its path. A path has
 * four waypoints: two on the road the car comes from (chosen by the origin
 * alone) followed by two on the road it leaves by (chosen by the destination
 * alone). Traffic keeps right: every lane is offset `Eps` from the road's
 * centre line, so an incoming and an outgoing lane never share a point.
 */
module Cars {
  import opened Geometry
  import opened Compass
  import opened Results

  /** A car's colour; only its name matters. */
  datatype Color = Color(name: string)

  /** The program's `all_colors`, in its order. */
  const AllColors: seq<Color> := [Color("red"), Color("blue"), Color("orange"), Color("green")]

  datatype Car = Car(comingFrom: Side, goingTo: Side, color: Color, path: seq<Side>)

  /** Lateral offset of a lane from the road's centre line. */
  const Eps: real := 0.1
  /** Distance from the centre at which a car turns. */
  const Delta: real := 0.2

  /**
   * The two waypoints on the origin road. Any vector that is not north, east
   * or south falls through to the west entry.
   */
  function Entry(from: Side): seq<Side> {
    if SameSide(from, Side(0.0, 1.0)) then [Side(-Eps, 1.0), Side(-Eps, Delta)]
    else if SameSide(from, Side(1.0, 0.0)) then [Side(1.0, Eps), Side(Delta, Eps)]
    else if SameSide(from, Side(0.0, -1.0)) then [Side(Eps, -1.0), Side(Eps, -Delta)]
    else [Side(-1.0, -Eps), Side(-Delta, -Eps)]
  }

  /**
   * The two waypoints on the destination road. Any vector that is not north,
   * east or south falls through to the west exit.
   */
  function Exit(to: Side): seq<Side> {
    if SameSide(to, Side(0.0, 1.0)) then [Side(Eps, Delta), Side(Eps, 1.0)]
    else if SameSide(to, Side(1.0, 0.0)) then [Side(Delta, -Eps), Side(1.0, -Eps)]
    else if SameSide(to, Side(0.0, -1.0)) then [Side(-Eps, -Delta), Side(-Eps, -1.0)]
    else [Side(-Delta, Eps), Side(-1.0, Eps)]
  }

  /**
   * The polyline of a car coming from `from` and going to `to`, for any two
   * vectors whatsoever: it has four waypoints, all inside the unit square and
   * none at the centre of the intersection.
   */
  function Path(from: Side, to: Side): (p: seq<Side>)
    ensures |p| == 4
    ensures forall i :: 0 <= i < |p| ==> InUnitSquare(p[i]) && p[i] != Centre
  {
    Entry(from) + Exit(to)
  }

  /** Building a car: the path is derived from origin and destination only. */
  function NewCar(from: Side, to: Side, color: Color): Car {
    Car(from, to, color, Path(from, to))
  }

  /**
   * Reference geometry of a keep-right path from road `o` to road `d`, in
   * road-frame coordinates: come in on `o` from the square's edge to depth
   * `Delta`, keeping `Eps` to the right; go out on `d` from depth `Delta` to
   * the edge, again keeping `Eps` to the right (the incoming driver's left).
   */
  function LanePath(o: Dir, d: Dir): seq<Side> {
    [ InFrame(o, 1.0, Eps), InFrame(o, Delta, Eps),
      InFrame(d, Delta, -Eps), InFrame(d, 1.0, -Eps) ]
  }

  /** The entry half of the table is the incoming keep-right lane. */
  lemma EntryIsLane(o: Dir)
    ensures Entry(Vector(o)) == LanePath(o, o)[..2]
  {
    match o
    case North =>
    case East =>
    case South =>
    case West =>
  }

  /** The exit half of the table is the outgoing keep-right lane. */
  lemma ExitIsLane(d: Dir)
    ensures Exit(Vector(d)) == LanePath(d, d)[2..]
  {
    match d
    case North =>
    case East =>
    case South =>
    case West =>
  }

  /** For the sixteen compass pairs the table is exactly the keep-right geometry. */
  lemma PathIsLanePath(o: Dir, d: Dir)
    ensures Path(Vector(o), Vector(d)) == LanePath(o, d)
  {
    EntryIsLane(o);
    ExitIsLane(d);
    var l := LanePath(o, d);
    assert l[..2] == LanePath(o, o)[..2];
    assert l[2..] == LanePath(d, d)[2..];
    assert l == l[..2] + l[2..];
  }

  /**
   * The first two waypoints depend on the origin alone and the last two on
   * the destination alone.
   */
  lemma PathLocality(o1: Side, d1: Side, o2: Side, d2: Side)
    ensures SameSide(o1, o2) ==> Path(o1, d1)[..2] == Path(o2, d2)[..2]
    ensures SameSide(d1, d2) ==> Path(o1, d1)[2..] == Path(o2, d2)[2..]
  {
    assert Path(o1, d1)[..2] == Entry(o1) && Path(o2, d2)[..2] == Entry(o2);
    assert Path(o1, d1)[2..] == Exit(d1) && Path(o2, d2)[2..] == Exit(d2);
  }

  /**
   * Start and end lie on the outer edge of the origin and destination roads,
   * the turning points lie at depth `Delta`, and every waypoint keeps `Eps`
   * to the right of its road's centre line.
   */
  lemma PathEndpoints(o: Dir, d: Dir)
    ensures var p := Path(Vector(o), Vector(d));
      && Along(p[0], o) == 1.0 && Along(p[1], o) == Delta
      && Along(p[2], d) == Delta && Along(p[3], d) == 1.0
      && Across(p[0], o) == Eps && Across(p[1], o) == Eps
      && Across(p[2], d) == -Eps && Across(p[3], d) == -Eps
  {
    PathIsLanePath(o, d);
    var l := LanePath(o, d);
    FrameRoundTrip(l[0], o, 1.0, Eps);
    FrameRoundTrip(l[1], o, Delta, Eps);
    FrameRoundTrip(l[2], d, Delta, -Eps);
    FrameRoundTrip(l[3], d, 1.0, -Eps);
  }

  /**
   * Incoming and outgoing lanes never share a point, so the four waypoints
   * of any compass path are pairwise distinct, even between the same road.
   */
  lemma LanesSeparate(o: Dir, d: Dir)
    ensures forall i, j :: 0 <= i < 2 && 0 <= j < 2 ==> Entry(Vector(o))[i] != Exit(Vector(d))[j]
    ensures var p := Path(Vector(o), Vector(d));
      forall i, j :: 0 <= i < j < 4 ==> p[i] != p[j]
  {
    match o
    case North =>
    case East =>
    case South =>
    case West =>
  }

  /** Entry and exit are different for different roads: the table is injective. */
  lemma LanesIdentifyRoads(o1: Dir, o2: Dir)
    ensures Entry(Vector(o1)) == Entry(Vector(o2)) ==> o1 == o2
    ensures Exit(Vector(o1)) == Exit(Vector(o2)) ==> o1 == o2
  {
    match o1
    case North =>
    case East =>
    case South =>
    case West =>
  }

  /** A vector that names no compass direction is routed as if it were west. */
  lemma NonCompassFallsToWest(v: Side)
    requires DirOf(v).None?
    ensures Entry(v) == Entry(Vector(West))
    ensures Exit(v) == Exit(Vector(West))
  {}

  /** The concrete case: from north to east. */
  lemma NorthToEast()
    ensures Path(Vector(North), Vector(East))
         == [Side(-0.1, 1.0), Side(-0.1, 0.2), Side(0.2, -0.1), Side(1.0, -0.1)]
  {}

  /** The four colours are different from each other. */
  lemma AllColorsDistinct()
    ensures |AllColors| == 4
    ensures forall i, j :: 0 <= i < j < |AllColors| ==> AllColors[i] != AllColors[j]
  {
    assert AllColors[0].name[0] != AllColors[1].name[0];
    assert AllColors[0].name[0] != AllColors[2].name[0];
    assert AllColors[0].name[0] != AllColors[3].name[0];
    assert AllColors[1].name[0] != AllColors[2].name[0];
    assert AllColors[1].name[0] != AllColors[3].name[0];
    assert AllColors[2].name[0] != AllColors[3].name[0];
  }
}

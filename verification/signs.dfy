/**
 * Generation of one puzzle: the roads that meet at the intersection, the two
 * of them that have right of way ("Vorfahrt"), and the cars, each with its
 * colour, the road it comes from and the road it leaves by. Randomness is
 * the injected tapes of `Sampling`, one per place where the program draws.
 */
module Signs {
  import opened Results
  import opened Geometry
  import opened Compass
  import opened Cars
  import opened Sampling

  datatype Sign = Sign(sides: seq<Side>, vorfahrt: seq<Side>, cars: seq<Car>)

  /** The random source, one tape per random call in the constructor. */
  datatype Tapes = Tapes(
    sides: seq<nat>,
    vorfahrt: seq<nat>,
    colors: seq<nat>,
    origins: seq<nat>,
    destinations: seq<nat>)

  /** The colours of the cars, in order. */
  function Colors(cars: seq<Car>): (r: seq<Color>)
    ensures |r| == |cars|
  {
    seq(|cars|, i requires 0 <= i < |cars| => cars[i].color)
  }

  /** The roads the cars come from, in order. */
  function Origins(cars: seq<Car>): (r: seq<Side>)
    ensures |r| == |cars|
  {
    seq(|cars|, i requires 0 <= i < |cars| => cars[i].comingFrom)
  }

  /**
   * What a generated puzzle with `nSides` roads and `nCars` cars looks like:
   * distinct compass roads; a right-of-way pair of two distinct roads among
   * them; cars with distinct colours from the palette, distinct origins
   * among the roads, a destination among the roads other than their own
   * origin, and the path the table gives for that origin and destination.
   */
  ghost predicate ValidSign(s: Sign, nSides: int, nCars: int) {
    && |s.sides| == nSides && Distinct(s.sides) && DrawnFrom(s.sides, AllSides)
    && |s.vorfahrt| == 2 && Distinct(s.vorfahrt) && DrawnFrom(s.vorfahrt, s.sides)
    && |s.cars| == nCars
    && Distinct(Colors(s.cars)) && DrawnFrom(Colors(s.cars), AllColors)
    && Distinct(Origins(s.cars)) && DrawnFrom(Origins(s.cars), s.sides)
    && (forall i :: 0 <= i < |s.cars| ==> CarObeys(s.cars[i], s.sides))
  }

  /**
   * A car leaves by one of the roads but not the one it came from, and its
   * path is the table's path for that origin and destination.
   */
  predicate CarObeys(c: Car, sides: seq<Side>) {
    && c.goingTo in sides
    && c.goingTo != c.comingFrom
    && c.path == Path(c.comingFrom, c.goingTo)
  }

  /** The roads a car coming from `origin` may leave by. */
  function OtherSides(sides: seq<Side>, origin: Side): (r: seq<Side>)
    requires origin in sides
    ensures |r| == |sides| - 1
  {
    RemoveAt(sides, IndexOf(sides, origin))
  }

  /** With no duplicate roads, the other roads are all roads but the origin. */
  lemma OtherSidesContents(sides: seq<Side>, origin: Side)
    requires Distinct(sides) && origin in sides
    ensures forall x :: x in OtherSides(sides, origin) <==> x in sides && x != origin
  {
    RemoveAtContents(sides, IndexOf(sides, origin));
  }

  /**
   * The loop that builds the cars: one per (colour, origin) pair, in order,
   * each with a destination drawn from the other active roads.
   */
  function MakeCars(colors: seq<Color>, origins: seq<Side>, sides: seq<Side>, tape: seq<nat>)
    : (cars: seq<Car>)
    requires |colors| == |origins| && |sides| >= 2 && Distinct(sides)
    requires DrawnFrom(origins, sides)
    ensures |cars| == |colors|
    ensures forall i :: 0 <= i < |cars| ==>
      && cars[i].color == colors[i] && cars[i].comingFrom == origins[i]
      && CarObeys(cars[i], sides)
    decreases |colors|
  {
    if |colors| == 0 then []
    else
      OtherSidesContents(sides, origins[0]);
      var to := Choice(OtherSides(sides, origins[0]), Head(tape));
      var rest := MakeCars(colors[1..], origins[1..], sides, Tail(tape));
      var cars := [NewCar(origins[0], to, colors[0])] + rest;
      assert forall i :: 0 < i < |cars| ==> cars[i] == rest[i - 1];
      cars
  }

  /**
   * The constructor. It draws the roads and the right-of-way pair first, then
   * refuses more cars than roads before it builds any car. A road count
   * outside 2 .. 4 or a negative car count fails in one of the samples.
   */
  function NewSign(nSides: int, nCars: int, tapes: Tapes): (r: Result<Sign, ValueError>)
    ensures r.Ok? <==> 2 <= nSides <= 4 && 0 <= nCars <= nSides
    ensures r == Err(MoreCarsThanSides) <==> 2 <= nSides <= 4 && nCars > nSides
    ensures r.Ok? ==> ValidSign(r.value, nSides, nCars)
  {
    AllSidesAreTheCompass(Side(0.0, 0.0));
    AllColorsDistinct();
    var sides :- Sample(AllSides, nSides, tapes.sides);
    var vorfahrt :- Sample(sides, 2, tapes.vorfahrt);
    if nCars > nSides then Err(MoreCarsThanSides)
    else
      var colors :- Sample(AllColors, nCars, tapes.colors);
      var origins := Sample(sides, nCars, tapes.origins).value;
      Ok(Assemble(sides, vorfahrt, colors, origins, tapes.destinations))
  }

  /** The puzzle built from the drawn roads, pair, colours and origins is valid. */
  function Assemble(sides: seq<Side>, vorfahrt: seq<Side>, colors: seq<Color>, origins: seq<Side>,
                    tape: seq<nat>): (s: Sign)
    requires |sides| >= 2 && Distinct(sides) && DrawnFrom(sides, AllSides)
    requires |vorfahrt| == 2 && Distinct(vorfahrt) && DrawnFrom(vorfahrt, sides)
    requires |colors| == |origins| && Distinct(colors) && DrawnFrom(colors, AllColors)
    requires Distinct(origins) && DrawnFrom(origins, sides)
    ensures ValidSign(s, |sides|, |colors|)
    ensures s.sides == sides && s.vorfahrt == vorfahrt
  {
    var cars := MakeCars(colors, origins, sides, tape);
    assert Colors(cars) == colors && Origins(cars) == origins;
    Sign(sides, vorfahrt, cars)
  }

  /** Every list of cars that obeys the rules is built by `MakeCars` for some tape. */
  lemma {:induction false} MakeCarsReaches(cars: seq<Car>, sides: seq<Side>) returns (tape: seq<nat>)
    requires |sides| >= 2 && Distinct(sides) && DrawnFrom(Origins(cars), sides)
    requires forall i :: 0 <= i < |cars| ==> CarObeys(cars[i], sides)
    ensures MakeCars(Colors(cars), Origins(cars), sides, tape) == cars
    decreases |cars|
  {
    if |cars| == 0 {
      tape := [];
    } else {
      var c := cars[0];
      assert Origins(cars)[0] == c.comingFrom && Colors(cars)[0] == c.color;
      var others := OtherSides(sides, c.comingFrom);
      OtherSidesContents(sides, c.comingFrom);
      var k := IndexOf(others, c.goingTo);
      ChoiceReaches(others, c.goingTo);
      ProjectionsOfTail(cars);
      var rest := MakeCarsReaches(cars[1..], sides);
      MakeCarsCons(Colors(cars), Origins(cars), sides, k, rest, cars[1..]);
      tape := [k] + rest;
      assert cars == [c] + cars[1..];
    }
  }

  /** Colours and origins of all cars but the first. */
  lemma ProjectionsOfTail(cars: seq<Car>)
    requires |cars| > 0
    ensures Colors(cars[1..]) == Colors(cars)[1..]
    ensures Origins(cars[1..]) == Origins(cars)[1..]
  {}

  /** A destination draw `k` for the first car followed by the draws for the others. */
  lemma MakeCarsCons(colors: seq<Color>, origins: seq<Side>, sides: seq<Side>, k: nat,
                     tape: seq<nat>, others: seq<Car>)
    requires 0 < |colors| == |origins| && |sides| >= 2 && Distinct(sides)
    requires DrawnFrom(origins, sides)
    requires MakeCars(colors[1..], origins[1..], sides, tape) == others
    ensures MakeCars(colors, origins, sides, [k] + tape)
         == [NewCar(origins[0], Choice(OtherSides(sides, origins[0]), k), colors[0])] + others
  {
    assert Head([k] + tape) == k;
    assert Tail([k] + tape) == tape;
  }

  /**
   * Every puzzle that obeys the rules is what the constructor builds for
   * some random source: the generator can produce all valid puzzles.
   */
  lemma NewSignReaches(s: Sign, nSides: int, nCars: int) returns (tapes: Tapes)
    requires ValidSign(s, nSides, nCars)
    ensures NewSign(nSides, nCars, tapes) == Ok(s)
  {
    AllSidesAreTheCompass(Side(0.0, 0.0));
    AllColorsDistinct();
    var sidesTape := SampleReaches(AllSides, s.sides);
    var vorfahrtTape := SampleReaches(s.sides, s.vorfahrt);
    var colorsTape := SampleReaches(AllColors, Colors(s.cars));
    var originsTape := SampleReaches(s.sides, Origins(s.cars));
    var destinationsTape := MakeCarsReaches(s.cars, s.sides);
    tapes := Tapes(sidesTape, vorfahrtTape, colorsTape, originsTape, destinationsTape);
  }

  /** Generation succeeds exactly for a valid size pair and then yields a valid puzzle. */
  lemma GenerationIsExact(s: Sign, nSides: int, nCars: int)
    ensures ValidSign(s, nSides, nCars) ==> 2 <= nSides <= 4 && 0 <= nCars <= nSides
    ensures ValidSign(s, nSides, nCars) <==> exists tapes :: NewSign(nSides, nCars, tapes) == Ok(s)
  {
    if ValidSign(s, nSides, nCars) {
      var tapes := NewSignReaches(s, nSides, nCars);
      assert NewSign(nSides, nCars, tapes) == Ok(s);
    }
  }

  /** Three roads and two cars never fail. */
  lemma ThreeRoadsTwoCars(tapes: Tapes)
    ensures NewSign(3, 2, tapes).Ok?
    ensures |NewSign(3, 2, tapes).value.cars| == 2
  {}

  /** With only two roads, both of them have right of way. */
  lemma TwoRoadsBothHaveWay(s: Sign, nCars: int)
    requires ValidSign(s, 2, nCars)
    ensures forall x :: x in s.vorfahrt <==> x in s.sides
  {
    assert s.vorfahrt[0] in s.sides && s.vorfahrt[1] in s.sides;
  }

  /** A fixed random source gives a fixed puzzle: three roads, two cars. */
  lemma SeededExample()
    ensures NewSign(3, 2, Tapes([1, 2, 0], [2, 0], [3, 0], [0, 0], [1, 0]))
         == Ok(Sign(
              [Vector(East), Vector(West), Vector(North)],
              [Vector(North), Vector(East)],
              [ NewCar(Vector(East), Vector(North), Color("green")),
                NewCar(Vector(West), Vector(East), Color("red")) ]))
  {
    var n, e, s, w := Vector(North), Vector(East), Vector(South), Vector(West);
    // roads: draw 1 of [n, e, s, w], then 2 of [n, s, w], then 0 of [n, s]
    PickSecondLastFirst(n, e, s, w);
    // right of way: draw 2 of [e, w, n], then 0 of [e, w]
    PickLastFirst(e, w, n);
    // colours: draw 3 of [red, blue, orange, green], then 0 of [red, blue, orange]
    PickLastFirstOfFour(Color("red"), Color("blue"), Color("orange"), Color("green"));
    // origins: draw 0 of [e, w, n], then 0 of [w, n]
    PickFirstTwo(e, w, n);
    SeededCars();
  }

  /* The draws of `SeededExample`, one random call at a time, for any elements. */

  lemma PickLastFirst<T>(x: T, y: T, z: T)
    ensures Pick([x, y, z], 2, [2, 0]) == [z, x]
  {
    PickStep([x, y, z], 2, [2, 0]);
    assert RemoveAt([x, y, z], 2) == [x, y];
    PickStep([x, y], 1, [0]);
    assert RemoveAt([x, y], 0) == [y];
  }

  lemma PickFirstTwo<T>(x: T, y: T, z: T)
    ensures Pick([x, y, z], 2, [0, 0]) == [x, y]
  {
    PickStep([x, y, z], 2, [0, 0]);
    assert RemoveAt([x, y, z], 0) == [y, z];
    PickStep([y, z], 1, [0]);
    assert RemoveAt([y, z], 0) == [z];
  }

  lemma PickSecondLastFirst<T>(a: T, b: T, c: T, d: T)
    ensures Pick([a, b, c, d], 3, [1, 2, 0]) == [b, d, a]
  {
    PickStep([a, b, c, d], 3, [1, 2, 0]);
    assert RemoveAt([a, b, c, d], 1) == [a, c, d];
    PickLastFirst(a, c, d);
  }

  lemma PickLastFirstOfFour<T>(a: T, b: T, c: T, d: T)
    ensures Pick([a, b, c, d], 2, [3, 0]) == [d, a]
  {
    PickStep([a, b, c, d], 2, [3, 0]);
    assert RemoveAt([a, b, c, d], 3) == [a, b, c];
    PickStep([a, b, c], 1, [0]);
    assert RemoveAt([a, b, c], 0) == [b, c];
  }

  lemma SeededCars()
    ensures var sides := [Vector(East), Vector(West), Vector(North)];
      MakeCars([Color("green"), Color("red")], [Vector(East), Vector(West)], sides, [1, 0])
      == [ NewCar(Vector(East), Vector(North), Color("green")),
           NewCar(Vector(West), Vector(East), Color("red")) ]
  {
    DirOfVector(North);
    DirOfVector(East);
    DirOfVector(West);
    ThreeRoadsCars(Vector(East), Vector(West), Vector(North), Color("green"), Color("red"));
  }

  /**
   * On roads `[e, w, n]`, a car from `e` with draw 1 goes to `n` and a car
   * from `w` with draw 0 goes to `e`.
   */
  lemma ThreeRoadsCars(e: Side, w: Side, n: Side, c1: Color, c2: Color)
    requires e != w && e != n && w != n
    ensures Distinct([e, w, n])
    ensures MakeCars([c1, c2], [e, w], [e, w, n], [1, 0]) == [NewCar(e, n, c1), NewCar(w, e, c2)]
  {
    var sides := [e, w, n];
    assert DrawnFrom([e, w], sides);
    assert IndexOf(sides, e) == 0;
    assert OtherSides(sides, e) == [w, n];
    assert Choice([w, n], 1) == n;
    assert [1] + [0] == [1, 0];
    ThreeRoadsLastCar(e, w, n, c2);
    assert [c1, c2][1..] == [c2] && [e, w][1..] == [w];
    MakeCarsCons([c1, c2], [e, w], sides, 1, [0], [NewCar(w, e, c2)]);
  }

  /** On roads `[e, w, n]`, a car from `w` with draw 0 goes to `e`. */
  lemma ThreeRoadsLastCar(e: Side, w: Side, n: Side, c: Color)
    requires e != w && e != n && w != n
    ensures Distinct([e, w, n])
    ensures MakeCars([c], [w], [e, w, n], [0]) == [NewCar(w, e, c)]
  {
    var sides := [e, w, n];
    assert DrawnFrom([w], sides);
    assert IndexOf(sides, w) == 1;
    assert OtherSides(sides, w) == [e, n];
    assert Choice([e, n], 0) == e;
    assert [0] + [] == [0];
    MakeCarsCons([c], [w], sides, 0, [], []);
  }

  /** Two roads and three cars fail with the too-many-cars error. */
  lemma TwoRoadsThreeCars(tapes: Tapes)
    ensures NewSign(2, 3, tapes) == Err(MoreCarsThanSides)
  {}

  /*
   * The program picks each destination by rejection: draw any active road,
   * and draw again while it is the car's own origin. `RejectionLoop` runs
   * that loop on a finite tape (`None` when the tape runs out first); its
   * outcomes are exactly the roads `OtherSides` offers, which is why
   * `MakeCars` draws from `OtherSides` directly.
   */

  function RejectionLoop(sides: seq<Side>, origin: Side, tape: seq<nat>): (r: Option<Side>)
    requires |sides| > 0
    ensures r.Some? ==> r.value in sides && r.value != origin
    decreases |tape|
  {
    if |tape| == 0 then None
    else
      var to := Choice(sides, tape[0]);
      if to != origin then Some(to) else RejectionLoop(sides, origin, tape[1..])
  }

  /** The loop stops as soon as the tape holds one draw that is not the origin. */
  lemma {:induction false} RejectionLoopStops(sides: seq<Side>, origin: Side, tape: seq<nat>, k: nat)
    requires |sides| > 0 && k < |tape| && Choice(sides, tape[k]) != origin
    ensures RejectionLoop(sides, origin, tape).Some?
    decreases k
  {
    if k > 0 && Choice(sides, tape[0]) == origin {
      RejectionLoopStops(sides, origin, tape[1..], k - 1);
    }
  }

  /** The rejection loop and the direct draw from `OtherSides` have the same outcomes. */
  lemma RejectionLoopOutcomes(sides: seq<Side>, origin: Side, to: Side)
    requires |sides| >= 2 && Distinct(sides) && origin in sides
    ensures (exists tape :: RejectionLoop(sides, origin, tape) == Some(to))
        <==> to in OtherSides(sides, origin)
    ensures to in OtherSides(sides, origin)
        <==> exists draw: nat :: Choice(OtherSides(sides, origin), draw) == to
  {
    var others := OtherSides(sides, origin);
    OtherSidesContents(sides, origin);
    if to in others {
      var i := IndexOf(sides, to);
      ChoiceReaches(sides, to);
      var tape: seq<nat> := [i];
      assert Choice(sides, tape[0]) == to;
      assert RejectionLoop(sides, origin, tape) == Some(to);
      assert exists t :: RejectionLoop(sides, origin, t) == Some(to);
      ChoiceReaches(others, to);
    } else {
      forall tape | true
        ensures RejectionLoop(sides, origin, tape) != Some(to)
      {}
    }
  }
}

# Who has right of way — a Dafny model of the puzzle generator

The program draws traffic puzzles: two to four roads meet at a crossing.
Two of the roads carry the right-of-way sign ("Vorfahrt"). A few coloured
cars each come in on one road and leave by another. This project models the
generator's core:

- the two-dimensional `Side` vector and its operators;
- the fixed waypoint table that turns a car's origin and destination into
  a four-point path;
- the road and colour lists;
- the `Sign` constructor, which draws roads, right of way, colours, origins
  and destinations at random.

Modules, in dependency order:

- `Results`: `Option` and `Result`, plus `ValueError`, the program's one
  exception type. `ValueError` has two causes: a sample size out of range,
  or more cars than roads.
- `Geometry`: `Side` as a pair of exact reals, with addition, subtraction,
  scaling and the coordinate-wise equality test.
- `Compass`: the four compass directions and `AllSides`. It also defines a
  road-frame coordinate system. In that frame, a point's position is its
  distance out along a road plus its offset across it.
- `Cars`: the colour palette, the car record, and the path table `Path`.
  The table is proved equal to a keep-right reference geometry
  (`LanePath`), written in the road frame.
- `Sampling`: `random.sample` and `random.choice`, driven by an injected
  tape of draws.
- `Signs`: the constructor `NewSign`, the validity predicate `ValidSign`,
  and the rejection loop that picks destinations.

Randomness is a parameter. Each random call site reads its own tape, a
`seq<nat>`, from the front. An exhausted tape reads as zeros.

- `random.choice(pool)` returns `pool[d % |pool|]`, where `d` is the next
  draw.
- `random.sample(pool, k)` repeats that `k` times, removing each chosen
  element from the pool.

The model proves two directions about the constructor:

- Soundness: every successful construction is a valid puzzle.
- Completeness: every valid puzzle comes out of some tape.

Together these say the constructor produces exactly the valid puzzles. They
do not depend on how CPython turns its generator state into indices.

Where the code and its written description disagree, the model follows the
code:

- Inputs outside 2..4 are not rejected up front. They fail inside
  `random.sample`, and the model keeps that order of checks.
  - A road count outside 0..4 fails when the roads are drawn.
  - A road count of 0 or 1 fails when the right-of-way pair is drawn.
  - More cars than roads fails after roads and right of way are drawn, but
    before any car is built.
  - A negative car count fails when the colours are drawn.
- The error message says the number of cars "must be smaller than" the
  number of roads. The test itself (`vorfahrt.py:77`) only refuses more cars
  than roads, so equal counts are accepted. The model follows the test.

## Model

| member | source | states |
|---|---|---|
| Geometry.SameSideIsEquality | werhatvorfahrt/vorfahrt.py:28-29 | Comparing both coordinates is the same as value equality of two vectors |
| Geometry.AddThenSub | werhatvorfahrt/vorfahrt.py:13-17 | Subtracting a vector undoes adding it |
| Geometry.SubThenAdd | werhatvorfahrt/vorfahrt.py:13-17 | Adding a vector undoes subtracting it |
| Geometry.AddLaws | werhatvorfahrt/vorfahrt.py:13-14 | Vector addition is commutative and associative, and the centre is its neutral element |
| Geometry.ScaleLaws | werhatvorfahrt/vorfahrt.py:13-20 | Scaling distributes over addition, composes by multiplying factors, and is the identity for 1. Subtraction is addition of the vector scaled by -1 |
| Compass.DirOf | werhatvorfahrt/vorfahrt.py:45-52 | The equality tests of the path table recognise a direction only when the vector is that direction's unit vector |
| Compass.DirOfVector | werhatvorfahrt/vorfahrt.py:68 | Each of the four road vectors is recognised as its own direction, so the four are pairwise different |
| Compass.AllSidesAreTheCompass | werhatvorfahrt/vorfahrt.py:68 | `all_sides` has four distinct entries, and a vector is in it exactly when it is one of the compass unit vectors |
| Compass.VectorInFrame | werhatvorfahrt/vorfahrt.py:68 | Each road vector lies at distance 1 on its own road's centre line |
| Cars.Path | werhatvorfahrt/vorfahrt.py:43-62 | For any origin and destination vectors, including ones outside the compass, the path has four waypoints. All of them lie in the unit square and none is the centre |
| Cars.PathIsLanePath | werhatvorfahrt/vorfahrt.py:43-62 | For all sixteen compass pairs, the table equals the keep-right geometry: enter on the origin road at offset `eps`, turn at depth `delta`, leave on the destination road at offset `eps` on the other side |
| Cars.EntryIsLane | werhatvorfahrt/vorfahrt.py:45-52 | The origin half of the table is the incoming lane of that road |
| Cars.ExitIsLane | werhatvorfahrt/vorfahrt.py:54-61 | The destination half of the table is the outgoing lane of that road |
| Cars.PathEndpoints | werhatvorfahrt/vorfahrt.py:43-62 | The path starts at distance 1 on the origin road, turns at distance `delta`, and ends at distance 1 on the destination road. It always keeps `eps` to the right of each road's centre line |
| Cars.PathLocality | werhatvorfahrt/vorfahrt.py:45-61 | The first two waypoints depend only on the origin and the last two only on the destination |
| Cars.LanesSeparate | werhatvorfahrt/vorfahrt.py:45-61 | No entry waypoint is an exit waypoint, so the four waypoints of a path are pairwise different, even when a car turns back onto its own road |
| Cars.LanesIdentifyRoads | werhatvorfahrt/vorfahrt.py:45-61 | Different roads have different entry lanes and different exit lanes |
| Cars.NonCompassFallsToWest | werhatvorfahrt/vorfahrt.py:45-61 | A vector that is not a compass direction gets the west lanes through the `else` branches |
| Cars.NorthToEast | werhatvorfahrt/vorfahrt.py:45-57 | A car from north to east gets the waypoints (-0.1, 1), (-0.1, 0.2), (0.2, -0.1), (1, -0.1) |
| Cars.AllColorsDistinct | werhatvorfahrt/vorfahrt.py:69 | The palette has four pairwise different colours |
| Sampling.ChoiceReaches | werhatvorfahrt/vorfahrt.py:85 | `random.choice` can return every element of its pool |
| Sampling.PickContents | werhatvorfahrt/vorfahrt.py:74-75 | Drawing without replacement returns elements of the pool. From a pool without duplicates, it returns no duplicates |
| Sampling.Sample | werhatvorfahrt/vorfahrt.py:74-75 | `random.sample` succeeds exactly when 0 <= k <= population size, and otherwise fails with `ValueError`. On success it returns `k` elements of the pool, without duplicates when the pool has none |
| Sampling.PickReaches | werhatvorfahrt/vorfahrt.py:81-82 | Every sequence of distinct pool elements, in any order, is what drawing without replacement returns for some tape |
| Sampling.SampleReaches | werhatvorfahrt/vorfahrt.py:74-75 | Every sample without duplicates, in any order, is what `random.sample` returns for some tape |
| Signs.OtherSides | werhatvorfahrt/vorfahrt.py:84-87 | The destinations a car may take are one fewer than the roads |
| Signs.OtherSidesContents | werhatvorfahrt/vorfahrt.py:84-87 | A car may leave by exactly the active roads other than its origin |
| Signs.MakeCars | werhatvorfahrt/vorfahrt.py:83-90 | The loop builds one car per colour and origin, in order. Each car keeps its colour and origin, leaves by an active road that is not its origin, and carries the table's path for that pair |
| Signs.MakeCarsReaches | werhatvorfahrt/vorfahrt.py:83-90 | Every list of cars that keeps these rules is what the loop builds for some tape of destination draws |
| Signs.NewSign | werhatvorfahrt/vorfahrt.py:72-90 | Construction succeeds exactly when 2 <= n_sides <= 4 and 0 <= n_cars <= n_sides. It raises the too-many-cars error exactly when the road count is valid and n_cars > n_sides. Every puzzle it builds is valid |
| Signs.Assemble | werhatvorfahrt/vorfahrt.py:80-90 | Building the cars from valid drawn roads, right of way, colours and origins gives a valid puzzle with those roads and that right of way |
| Signs.NewSignReaches | werhatvorfahrt/vorfahrt.py:72-90 | Every valid puzzle is what the constructor returns for some random source |
| Signs.GenerationIsExact | werhatvorfahrt/vorfahrt.py:72-90 | A puzzle is valid exactly when some random source makes the constructor return it, and valid puzzles only exist for valid counts |
| Signs.ThreeRoadsTwoCars | werhatvorfahrt/vorfahrt.py:72-90 | Three roads and two cars always succeed, with two cars |
| Signs.TwoRoadsBothHaveWay | werhatvorfahrt/vorfahrt.py:74-75 | With two roads, the right-of-way pair is both roads |
| Signs.TwoRoadsThreeCars | werhatvorfahrt/vorfahrt.py:77-78 | Two roads and three cars fail with the too-many-cars error, whatever the random source |
| Signs.SeededExample | werhatvorfahrt/vorfahrt.py:72-90 | A fixed random source gives a fixed puzzle: roads east, west, north; right of way north and east; a green car east to north and a red car west to east |
| Signs.RejectionLoop | werhatvorfahrt/vorfahrt.py:84-87 | When the redraw loop stops, it returns an active road other than the car's origin |
| Signs.RejectionLoopStops | werhatvorfahrt/vorfahrt.py:84-87 | The loop stops once the tape holds one draw that is not the origin |
| Signs.RejectionLoopOutcomes | werhatvorfahrt/vorfahrt.py:84-87 | The redraw loop can return exactly the roads other than the origin, which are exactly what one direct draw from those roads can return |

## Left out

- `Sign.draw` (`vorfahrt.py:92-184`) is rendering through matplotlib, which is I/O.
- The web front end (`app.py`) and the package file (`__init__.py`) are not part of this model.
- `Side.__div__` (`vorfahrt.py:22-23`) is not modelled. Python 3 never calls a method by that name for `/`, so it is dead code. As written, it divides both coordinates.
- `__repr__` of `Side` and `Car` only formats text for debugging.
- Coordinates are exact reals, not IEEE doubles. The table's constants (0.1, 0.2, ±1) are compared only for equality with exact values, so rounding plays no part in what the model proves.
- The model does not state probabilities. It says which outcomes are possible, not how likely each one is. This includes the uniformity of `random.sample` and `random.choice`, and CPython's index selection algorithm.
- Signs.RejectionLoop: the redraw loop is modelled on a finite tape and returns `None` when the tape runs out. The real loop has no bound and only terminates with probability 1. `MakeCars` draws directly from the other roads, and `RejectionLoopOutcomes` proves both give the same outcomes.
- The process-wide random generator is modelled as one tape per call site. An error raised after the roads are drawn still uses up draws in the real program. The model does not show that, because nothing after the error reads the generator.
- `Side` defines `__eq__` without `__hash__`, so instances are unhashable in Python. Nothing in the core hashes them, so this is not modelled.
- Arguments that are not integers (the type hints allow only 2, 3 and 4) are not modelled. Other integers are modelled, with the errors the code raises for them.

/** The position filter and the base-station bookkeeping of the bootloader: where a position comes
    from, when it is believed, and the draining of raw sweep counts. */
module Localization {
  import opened Basics
  import opened Flash

  const MAX_COORDINATE: nat := 100000
  const DISTANCE_THRESHOLD: nat := 500

  /** Both sweeps of one base station: processed data available, and the counts. */
  datatype Station = Station(ready1: bool, ready2: bool, count1: u32, count2: u32) {
    predicate Ready() { ready1 && ready2 }
    function Cleared(): Station { Station(false, false, count1, count2) }
  }

  datatype Coordinates = Coordinates(x: real, y: real)

  datatype Point = Point(x: int, y: int)

  const ORIGIN := Point(0, 0)

  /** The position the driver computes from a station's counts and its index. */
  type Solver = (u32, u32, nat) -> Coordinates

  datatype Localizer = Localizer(stations: seq<Station>, calibrated: bool, coordinates: Coordinates, position: Point,
    previous: Point)

  function Square(x: int): int { x * x }

  /** Exact for the positions in range: their squared distances up to the threshold are small integers. */
  function SquaredDistance(p: Point, q: Point): int {
    Square(q.x - p.x) + Square(q.y - p.y)
  }

  predicate Near(p: Point, q: Point) {
    SquaredDistance(p, q) <= Square(DISTANCE_THRESHOLD)
  }

  predicate InRange(p: Point) {
    0 <= p.x <= MAX_COORDINATE && 0 <= p.y <= MAX_COORDINATE
  }

  predicate Plausible(c: Coordinates) {
    0.0 <= c.x <= MAX_COORDINATE as real && 0.0 <= c.y <= MAX_COORDINATE as real
  }

  /** The cast of non-negative coordinates to `uint32_t`. */
  function Truncated(c: Coordinates): Point {
    Point(c.x.Floor, c.y.Floor)
  }

  /** The lowest ready station, or their number. */
  function FirstReady(stations: seq<Station>): (i: nat)
    ensures i <= |stations| && (i < |stations| ==> stations[i].Ready())
    ensures forall j :: 0 <= j < i ==> !stations[j].Ready()
  {
    if stations == [] || stations[0].Ready() then 0 else 1 + FirstReady(stations[1..])
  }

  /** Fresh coordinates from the lowest ready station; without one the old coordinates stand. */
  function Refresh(l: Localizer, solve: Solver): Localizer {
    var i := FirstReady(l.stations);
    if i == |l.stations| then l
    else
      var s := l.stations[i];
      l.(stations := l.stations[i := s.Cleared()], coordinates := solve(s.count1, s.count2, i))
  }

  /** What the filter does with the coordinates it holds; (0,0) as reference means none yet. */
  function Filter(l: Localizer): (Localizer, Option<Point>) {
    if !Plausible(l.coordinates) then (l, None)
    else
      var p := Truncated(l.coordinates);
      if l.previous != ORIGIN && !Near(l.previous, p) then (l.(position := p), None)
      else (l.(position := p, previous := p), Some(p))
  }

  function Position(l: Localizer, solve: Solver): (Localizer, Option<Point>) {
    if l.calibrated then Filter(Refresh(l, solve)) else (l, None)
  }

  // ---- Runs of the filter

  /** Between two positions the stations may have gathered anything, and a calibration may have been loaded. */
  datatype Reading = Reading(stations: seq<Station>, calibrated: bool, solve: Solver)

  function Prepared(l: Localizer, r: Reading): Localizer {
    l.(stations := r.stations, calibrated := r.calibrated)
  }

  function AfterReadings(l: Localizer, rs: seq<Reading>): Localizer {
    if rs == [] then l
    else
      var before := AfterReadings(l, rs[..|rs| - 1]);
      Position(Prepared(before, rs[|rs| - 1]), rs[|rs| - 1].solve).0
  }

  /** The positions a run accepts. */
  function Accepted(l: Localizer, rs: seq<Reading>): seq<Point> {
    if rs == [] then []
    else
      var before := AfterReadings(l, rs[..|rs| - 1]);
      var result := Position(Prepared(before, rs[|rs| - 1]), rs[|rs| - 1].solve).1;
      Accepted(l, rs[..|rs| - 1]) + if result.Some? then [result.value] else []
  }

  lemma PositionAccepts(l: Localizer, solve: Solver)
    ensures var (m, r) := Position(l, solve);
      if r.Some? then InRange(r.value) && m.previous == r.value && (l.previous == ORIGIN || Near(l.previous, r.value))
      else m.previous == l.previous
  {
  }

  /** The reference is always the last accepted position; rejected readings never move it. */
  lemma {:induction false} ReferenceIsLastAccepted(l: Localizer, rs: seq<Reading>)
    ensures AfterReadings(l, rs).previous == if Accepted(l, rs) == [] then l.previous
      else Accepted(l, rs)[|Accepted(l, rs)| - 1]
    decreases |rs|
  {
    if rs != [] {
      hide Position;
      ReferenceIsLastAccepted(l, rs[..|rs| - 1]);
      PositionAccepts(Prepared(AfterReadings(l, rs[..|rs| - 1]), rs[|rs| - 1]), rs[|rs| - 1].solve);
    }
  }

  /** All accepted positions lie in the arena, and each is near the one before it unless that was (0,0). */
  lemma {:induction false} AcceptedAreClose(l: Localizer, rs: seq<Reading>)
    ensures forall p :: p in Accepted(l, rs) ==> InRange(p)
    ensures forall k :: 0 < k < |Accepted(l, rs)| ==>
      Accepted(l, rs)[k - 1] == ORIGIN || Near(Accepted(l, rs)[k - 1], Accepted(l, rs)[k])
    decreases |rs|
  {
    if rs != [] {
      hide Position, Near, InRange;
      AcceptedAreClose(l, rs[..|rs| - 1]);
      ReferenceIsLastAccepted(l, rs[..|rs| - 1]);
      PositionAccepts(Prepared(AfterReadings(l, rs[..|rs| - 1]), rs[|rs| - 1]), rs[|rs| - 1].solve);
    }
  }

  // ---- How far a run can drift

  lemma SquareMonotone(x: int, y: int)
    requires 0 <= x && 0 <= y
    ensures x <= y <==> Square(x) <= Square(y)
  {
    if x <= y {
      assert x * x <= x * y <= y * y;
    } else {
      assert y * y <= y * x && y * x < x * x;
    }
  }

  lemma ProductMonotone(u: int, v: int, x: int, y: int)
    requires 0 <= u <= x && 0 <= v <= y
    ensures u * v <= x * y
  {
    assert u * v <= x * v <= x * y;
  }

  lemma SquareOfProduct(x: int, y: int)
    ensures (x * x) * (y * y) == Square(x * y)
  {
  }

  /** Lagrange's identity. */
  lemma Lagrange(a: int, b: int, c: int, d: int)
    ensures Square(a * c + b * d) + Square(a * d - b * c) == (a * a + b * b) * (c * c + d * d)
  {
    SquareOfSum(a * c, b * d);
    SquareOfSum(a * d, -(b * c));
    SquareOfProduct(a, c);
    SquareOfProduct(b, d);
    SquareOfProduct(a, d);
    SquareOfProduct(b, c);
  }

  /** The inner product is at most the product of the lengths. */
  lemma CauchySchwarz(a: int, b: int, c: int, d: int, r: int, s: int)
    requires 0 <= r && 0 <= s && a * a + b * b <= r * r && c * c + d * d <= s * s
    ensures a * c + b * d <= r * s
  {
    Lagrange(a, b, c, d);
    SquareNonNegative(a * d - b * c);
    ProductMonotone(a * a + b * b, c * c + d * d, r * r, s * s);
    SquareOfProduct(r, s);
    hide Square;
    if a * c + b * d > 0 {
      SquareMonotone(a * c + b * d, r * s);
    }
  }

  lemma SquareNonNegative(x: int)
    ensures Square(x) >= 0
  {
  }

  lemma SquareOfSum(x: int, y: int)
    ensures Square(x + y) == x * x + 2 * (x * y) + y * y
  {
  }

  /** The triangle inequality on squared distances. */
  lemma Triangle(p: Point, q: Point, o: Point, r: nat, s: nat)
    requires SquaredDistance(p, q) <= Square(r) && SquaredDistance(q, o) <= Square(s)
    ensures SquaredDistance(p, o) <= Square(r + s)
  {
    var a, b, c, d := q.x - p.x, q.y - p.y, o.x - q.x, o.y - q.y;
    assert a * a + b * b <= r * r && c * c + d * d <= s * s;
    CauchySchwarz(a, b, c, d, r, s);
    hide Square;
    SquareOfSum(a, c);
    SquareOfSum(b, d);
    SquareOfSum(r, s);
    assert o.x - p.x == a + c && o.y - p.y == b + d;
  }

  lemma {:induction false} ChainStaysNear(ps: seq<Point>)
    requires |ps| > 0 && forall k :: 0 < k < |ps| ==> Near(ps[k - 1], ps[k])
    ensures SquaredDistance(ps[0], ps[|ps| - 1]) <= Square(DISTANCE_THRESHOLD * (|ps| - 1))
    decreases |ps|
  {
    if |ps| > 1 {
      ChainStaysNear(ps[..|ps| - 1]);
      hide SquaredDistance, Square;
      Triangle(ps[0], ps[|ps| - 2], ps[|ps| - 1], DISTANCE_THRESHOLD * (|ps| - 2), DISTANCE_THRESHOLD);
    }
  }

  /** Over any run of accepted positions, none of them (0,0), the last is within 500 mm per step of the first. */
  lemma RunsDriftSlowly(l: Localizer, rs: seq<Reading>, from: nat, to: nat)
    requires from <= to < |Accepted(l, rs)|
    requires forall k :: from <= k < to ==> Accepted(l, rs)[k] != ORIGIN
    ensures var p, q := Accepted(l, rs)[from], Accepted(l, rs)[to];
      (q.x - p.x) * (q.x - p.x) + (q.y - p.y) * (q.y - p.y) <= (500 * (to - from)) * (500 * (to - from))
  {
    hide Accepted, Near;
    AcceptedAreClose(l, rs);
    ChainStaysNear(Accepted(l, rs)[from..to + 1]);
  }

  /** One reading in plain numbers: a calibrated filter believes coordinates inside the square of 100 m if there is no
      reference or the truncated position is at most 500 mm from it, and then that position is the result and the
      reference. */
  lemma OneReading(l: Localizer, solve: Solver)
    ensures var (m, r) := Position(l, solve); var c := m.coordinates;
      && (r.Some? <==>
            l.calibrated && 0.0 <= c.x <= 100000.0 && 0.0 <= c.y <= 100000.0
            && ((l.previous.x == 0 && l.previous.y == 0)
                || (c.x.Floor - l.previous.x) * (c.x.Floor - l.previous.x)
                   + (c.y.Floor - l.previous.y) * (c.y.Floor - l.previous.y) <= 250000))
      && (r.Some? ==> m.previous == m.position == r.value
                      && r.value.x as real <= c.x < (r.value.x + 1) as real
                      && r.value.y as real <= c.y < (r.value.y + 1) as real)
      && (r.None? ==> m.previous == l.previous)
  {
  }

  /** The lowest station with both sweeps decides the coordinates, first sweep first, and is used up; no other station
      changes, and without one the coordinates stay. */
  lemma LowestStationDecides(l: Localizer, solve: Solver, i: nat)
    requires l.calibrated && i <= |l.stations|
    requires forall j :: 0 <= j < i ==> !(l.stations[j].ready1 && l.stations[j].ready2)
    requires i < |l.stations| ==> l.stations[i].ready1 && l.stations[i].ready2
    ensures var m := Position(l, solve).0;
      && |m.stations| == |l.stations|
         && (forall j :: 0 <= j < |l.stations| && j != i ==> m.stations[j] == l.stations[j])
      && if i == |l.stations| then m.coordinates == l.coordinates
         else m.coordinates == solve(l.stations[i].count1, l.stations[i].count2, i)
              && !m.stations[i].ready1 && !m.stations[i].ready2
  {
    var first := FirstReady(l.stations);
    assert first == i;
  }

  /** Once (0,0) is the last accepted position the reference is gone: any plausible reading is accepted next. */
  lemma OriginForgetsReference(l: Localizer, rs: seq<Reading>, solve: Solver)
    requires Accepted(l, rs) != [] && Accepted(l, rs)[|Accepted(l, rs)| - 1] == ORIGIN
    ensures var (m, r) := Position(AfterReadings(l, rs), solve);
      r.Some? <==> AfterReadings(l, rs).calibrated && Plausible(m.coordinates)
  {
    ReferenceIsLastAccepted(l, rs);
    hide AfterReadings, Accepted;
  }

  /** The last of `rs` hands the filter coordinates near the first reference. */
  predicate OffersNear(l: Localizer, rs: seq<Reading>)
    requires rs != []
  {
    var after := AfterReadings(l, rs);
    rs[|rs| - 1].calibrated && Plausible(after.coordinates) && Near(l.previous, Truncated(after.coordinates))
  }

  lemma AcceptedExactlyIfNear(l: Localizer, solve: Solver)
    requires l.previous != ORIGIN
    ensures var (m, r) := Position(l, solve);
      r.Some? <==> l.calibrated && Plausible(m.coordinates) && Near(l.previous, Truncated(m.coordinates))
  {
  }

  /** With a reference set, nothing is accepted exactly as long as no reading comes near that reference: a robot
      carried further away stays without a position until it is brought back. */
  lemma {:induction false} NothingAcceptedExactlyIfFar(l: Localizer, rs: seq<Reading>)
    requires l.previous != ORIGIN
    ensures Accepted(l, rs) == [] <==> forall k :: 0 < k <= |rs| ==> !OffersNear(l, rs[..k])
    decreases |rs|
  {
    if rs != [] {
      var init := rs[..|rs| - 1];
      assert forall k :: 0 < k <= |init| ==> init[..k] == rs[..k];
      assert rs[..|rs|] == rs;
      NothingAcceptedExactlyIfFar(l, init);
      ReferenceIsLastAccepted(l, init);
      var last := Prepared(AfterReadings(l, init), rs[|rs| - 1]);
      if Accepted(l, init) == [] {
        AcceptedExactlyIfNear(last, rs[|rs| - 1].solve);
      }
      hide Position, Plausible, Near, Truncated;
    }
  }
}

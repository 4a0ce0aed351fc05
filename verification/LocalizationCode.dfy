/** The localization code itself, on the driver's buffers: the filtered position, the drain of raw
    counts, and the bootloader's capture frame written into the shared log buffer. */
module LocalizationCode {
  import opened Basics
  import opened Capture
  import opened Localization

  /** `_localization_data`. */
  class LocalizationData {
    const stations: array<Station>
    var calibrationLoaded: bool
    var coordinates: Coordinates
    var position: Point
    var previousPosition: Point

    constructor (stations: array<Station>)
      ensures State() == Localizer(stations[..], false, Coordinates(0.0, 0.0), ORIGIN, ORIGIN)
    {
      this.stations := stations;
      calibrationLoaded := false;
      coordinates := Coordinates(0.0, 0.0);
      position, previousPosition := ORIGIN, ORIGIN;
    }

    ghost function State(): Localizer
      reads this, stations
    {
      Localizer(stations[..], calibrationLoaded, coordinates, position, previousPosition)
    }

    /** `localization_process_data`, after the driver has run. */
    method ProcessData() returns (available: bool)
      ensures available <==> exists i :: 0 <= i < stations.Length && stations[i].Ready()
    {
      for i := 0 to stations.Length
        invariant forall k :: 0 <= k < i ==> !stations[k].Ready()
      {
        if stations[i].ready1 && stations[i].ready2 { return true; }
      }
      return false;
    }

    /** `localization_get_position`. */
    method GetPosition(solve: Solver) returns (r: Option<Point>)
      modifies this, stations
      ensures (State(), r) == Position(old(State()), solve)
    {
      if !calibrationLoaded { return None; }
      RefreshCoordinates(solve);
      if coordinates.x < 0.0 || coordinates.x > MAX_COORDINATE as real
         || coordinates.y < 0.0 || coordinates.y > MAX_COORDINATE as real {
        return None;
      }
      position := Point(coordinates.x.Floor, coordinates.y.Floor);
      if previousPosition.x == 0 && previousPosition.y == 0 {
        previousPosition := position;
      }
      if SquaredDistance(previousPosition, position) > Square(DISTANCE_THRESHOLD) {
        return None;
      }
      previousPosition := position;
      r := Some(position);
    }

    /** The search for a ready station. */
    method RefreshCoordinates(solve: Solver)
      modifies this`coordinates, stations
      ensures State() == Refresh(old(State()), solve)
    {
      ghost var first := FirstReady(stations[..]);
      for i := 0 to stations.Length
        invariant i <= first && State() == old(State())
      {
        if stations[i].ready1 && stations[i].ready2 {
          coordinates := solve(stations[i].count1, stations[i].count2, i);
          stations[i] := stations[i].Cleared();
          assert i == first;
          return;
        }
      }
    }

    /** `localization_get_raw_counts`. */
    method GetRawCounts(out: array<Sample>, max: nat) returns (n: nat)
      requires max <= out.Length
      modifies out, stations
      ensures n <= max && out[..n] == Drained(old(stations[..]), 0, max)
      ensures stations[..] == Left(old(stations[..]), 0, max)
    {
      ghost var was := stations[..];
      var i := 0;
      n := 0;
      while i < stations.Length && n < max
        invariant i <= stations.Length && n <= max
        invariant Drained(was, 0, max) == out[..n] + Drained(stations[..], i, max - n)
        invariant Left(was, 0, max) == Left(stations[..], i, max - n)
      {
        if stations[i].ready1 && stations[i].ready2 {
          n := TakeSample(out, i, n, max);
        }
        i := i + 1;
      }
    }

    /** One ready station's counts, and its flags cleared. */
    method TakeSample(out: array<Sample>, i: nat, n: nat, ghost max: nat) returns (m: nat)
      requires i < stations.Length && stations[i].Ready() && n < max <= out.Length
      modifies out, stations
      ensures m == n + 1 && stations[..] == old(stations[..])[i := old(stations[i]).Cleared()]
      ensures out[..m] + Drained(stations[..], i + 1, max - m) == old(out[..n] + Drained(stations[..], i, max - n))
    {
      ghost var was := stations[..];
      out[n] := Sample(i, stations[i].count1, stations[i].count2);
      stations[i] := stations[i].Cleared();
      m := n + 1;
      LaterStationsMatter(was, stations[..], i + 1, max - m);
      assert out[..m] == old(out[..n]) + [SampleOf(was, i)];
    }
  }

  lemma AvailableIsDrained(stations: seq<Station>, i: nat)
    requires i < |stations| && stations[i].Ready()
    ensures Drained(stations, 0, MAX_SAMPLES) != []
  {
    NothingIsLost(stations, 0, MAX_SAMPLES, i);
  }

  /** The capture request and the shared log buffer. */
  class CaptureLog {
    const data: array<Byte>
    var length: nat
    var capturing: bool
    var sent: nat          // log events signalled to the network core

    ghost predicate Valid()
      reads this
    {
      data.Length == LOG_CAPACITY && length <= LOG_CAPACITY
    }

    /** The capture part of a main-loop pass: a requested capture with data becomes one frame, which the host decodes
        to exactly the samples drained; otherwise nothing happens. */
    method ReportCapture(loc: LocalizationData)
      requires Valid() && loc.stations.Length <= 0x100
      modifies this, data, loc.stations
      ensures Valid()
      ensures var was := old(loc.stations[..]); var ready := exists i :: 0 <= i < |was| && was[i].Ready();
        if old(capturing) && ready
        then loc.stations[..] == Left(was, 0, MAX_SAMPLES) && !capturing && sent == old(sent) + 1
             && DecodeFrame(data[..length]) == Some(Drained(was, 0, MAX_SAMPLES))
        else loc.stations[..] == was && capturing == old(capturing) && sent == old(sent) && data[..] == old(data[..])
    {
      ghost var was := loc.stations[..];
      var available := loc.ProcessData();
      if capturing && available {
        var samples := new Sample[MAX_SAMPLES](_ => Sample(0, 0, 0));
        var count := loc.GetRawCounts(samples, MAX_SAMPLES);
        DrainedInOrder(was, 0, MAX_SAMPLES);
        if count > 0 {
          WriteFrame(samples[..count]);
          FrameRoundTrip(samples[..count], data[..length]);
          sent := sent + 1;
          capturing := false;
        } else {
          ghost var i :| 0 <= i < |was| && was[i].Ready();
          AvailableIsDrained(was, i);
          assert false;
        }
      }
    }

    /** Tag and samples, byte by byte. */
    method WriteFrame(samples: seq<SmallSample>)
      requires Valid() && |samples| <= MAX_SAMPLES
      modifies this`length, data
      ensures Valid() && data[..length] == EncodeFrame(samples)
    {
      data[0] := SWRMT_LH2_CALIB_TAG;
      length := 1;
      for i := 0 to |samples|
        invariant length == 1 + SAMPLE_SIZE * i
        invariant data[..length] == EncodeFrame(samples[..i])
      {
        WriteSample(samples[i]);
        assert samples[..i + 1][..i] == samples[..i];
      }
      assert samples[..|samples|] == samples;
    }

    method WriteSample(s: SmallSample)
      requires Valid() && length + SAMPLE_SIZE <= LOG_CAPACITY
      modifies this`length, data
      ensures Valid() && length == old(length) + SAMPLE_SIZE
      ensures data[..length] == old(data[..length]) + EncodeSample(s)
    {
      Append([s.index]);
      Append(Bytes4(s.count1));
      Append(Bytes4(s.count2));
    }

    method Append(bytes: seq<Byte>)
      requires Valid() && length + |bytes| <= LOG_CAPACITY
      modifies this`length, data
      ensures Valid() && length == old(length) + |bytes| && data[..length] == old(data[..length]) + bytes
    {
      forall k | 0 <= k < |bytes| { data[length + k] := bytes[k]; }
      length := length + |bytes|;
    }
  }
}

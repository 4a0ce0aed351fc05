/** The raw capture used for calibrating from afar: which samples a capture drains, what is left for
    the next one, and the frame that carries them. */
module Capture {
  import opened Basics
  import opened Flash
  import opened Localization
  import Calibration

  type Byte = Calibration.Byte

  const SWRMT_LH2_CALIB_TAG: Byte := 0xCA
  const SAMPLE_SIZE: nat := 9
  const LOG_CAPACITY: nat := 127
  const MAX_SAMPLES: nat := (LOG_CAPACITY - 1) / SAMPLE_SIZE

  datatype Sample = Sample(index: nat, count1: u32, count2: u32)

  function SampleOf(stations: seq<Station>, i: nat): Sample
    requires i < |stations|
  {
    Sample(i, stations[i].count1, stations[i].count2)
  }

  // ---- Draining

  /** The samples of the first `max` ready stations from `from` on. */
  function Drained(stations: seq<Station>, from: nat, max: nat): seq<Sample>
    requires from <= |stations|
    decreases |stations| - from
  {
    if from == |stations| || max == 0 then []
    else if stations[from].Ready() then [SampleOf(stations, from)] + Drained(stations, from + 1, max - 1)
    else Drained(stations, from + 1, max)
  }

  /** The stations once those samples are taken. */
  function Left(stations: seq<Station>, from: nat, max: nat): (r: seq<Station>)
    requires from <= |stations|
    ensures |r| == |stations|
    decreases |stations| - from
  {
    if from == |stations| || max == 0 then stations
    else if stations[from].Ready() then Left(stations[from := stations[from].Cleared()], from + 1, max - 1)
    else Left(stations, from + 1, max)
  }

  predicate Reports(samples: seq<Sample>, i: nat) {
    exists s :: s in samples && s.index == i
  }

  predicate Ascending(samples: seq<Sample>) {
    forall j, k :: 0 <= j < k < |samples| ==> samples[j].index < samples[k].index
  }

  /** A capture reports ready stations only, each once and in ascending order, with its counts. */
  lemma {:induction false} DrainedInOrder(stations: seq<Station>, from: nat, max: nat)
    requires from <= |stations|
    ensures |Drained(stations, from, max)| <= max && Ascending(Drained(stations, from, max))
    ensures forall s :: s in Drained(stations, from, max) ==>
      from <= s.index < |stations| && stations[s.index].Ready() && s == SampleOf(stations, s.index)
    decreases |stations| - from
  {
    if from < |stations| && max > 0 {
      DrainedInOrder(stations, from + 1, if stations[from].Ready() then max - 1 else max);
    }
  }

  /** Nothing is lost: a station is ready afterwards exactly if it was ready and not reported, its counts stay,
      and a ready station goes unreported only when the capture is full. */
  lemma {:induction false} NothingIsLost(stations: seq<Station>, from: nat, max: nat, i: nat)
    requires from <= |stations| && i < |stations|
    ensures var after := Left(stations, from, max); var samples := Drained(stations, from, max);
      && after[i] == (if Reports(samples, i) then stations[i].Cleared() else stations[i])
      && (from <= i && stations[i].Ready() && !Reports(samples, i) ==> |samples| == max)
    decreases |stations| - from
  {
    var samples := Drained(stations, from, max);
    if from < |stations| && max > 0 {
      if stations[from].Ready() {
        var next := stations[from := stations[from].Cleared()];
        NothingIsLost(next, from + 1, max - 1, i);
        LaterStationsMatter(stations, next, from + 1, max - 1);
        DrainedInOrder(next, from + 1, max - 1);
        var rest := Drained(next, from + 1, max - 1);
        assert samples == [SampleOf(stations, from)] + rest;
        assert samples[0].index == from;
        assert forall s :: s in samples <==> s == samples[0] || s in rest;
      } else {
        NothingIsLost(stations, from + 1, max, i);
        DrainedInOrder(stations, from + 1, max);
      }
    }
  }

  lemma {:induction false} LaterStationsMatter(xs: seq<Station>, ys: seq<Station>, from: nat, max: nat)
    requires |xs| == |ys| && from <= |xs| && forall k :: from <= k < |xs| ==> xs[k] == ys[k]
    ensures Drained(xs, from, max) == Drained(ys, from, max)
    decreases |xs| - from
  {
    if from < |xs| && max > 0 {
      LaterStationsMatter(xs, ys, from + 1, if xs[from].Ready() then max - 1 else max);
    }
  }

  /** Two captures with nothing gathered in between report what one bigger capture would: the second goes on where
      the first was full. */
  lemma {:induction false} CapturesContinue(stations: seq<Station>, from: nat, m: nat, n: nat)
    requires from <= |stations| && forall k :: 0 <= k < from ==> !stations[k].Ready()
    ensures Drained(stations, from, m) + Drained(Left(stations, from, m), 0, n) == Drained(stations, from, m + n)
    ensures Left(Left(stations, from, m), 0, n) == Left(stations, from, m + n)
    decreases |stations| - from
  {
    if from == |stations| || m == 0 {
      SkipUnready(stations, 0, from, n);
      assert Drained(stations, from, m) == [];
    } else if stations[from].Ready() {
      var next := stations[from := stations[from].Cleared()];
      CapturesContinue(next, from + 1, m - 1, n);
      LaterStationsMatter(stations, next, from + 1, m - 1);
      LaterStationsMatter(stations, next, from + 1, m - 1 + n);
    } else {
      CapturesContinue(stations, from + 1, m, n);
    }
  }

  lemma {:induction false} SkipUnready(stations: seq<Station>, from: nat, next: nat, max: nat)
    requires from <= next <= |stations| && forall k :: from <= k < next ==> !stations[k].Ready()
    ensures Drained(stations, from, max) == Drained(stations, next, max)
      && Left(stations, from, max) == Left(stations, next, max)
    decreases next - from
  {
    if from < next {
      SkipUnready(stations, from + 1, next, max);
    }
  }

  /** A sample says which station it is from and has that station's counts, first sweep first; the station had both
      sweeps, and then has neither. */
  lemma SamplesAreTheStations(stations: seq<Station>, max: nat)
    ensures forall s :: s in Drained(stations, 0, max) ==>
      && s.index < |stations| && stations[s.index].ready1 && stations[s.index].ready2
      && s.count1 == stations[s.index].count1 && s.count2 == stations[s.index].count2
      && !Left(stations, 0, max)[s.index].ready1 && !Left(stations, 0, max)[s.index].ready2
  {
    DrainedInOrder(stations, 0, max);
    forall s | s in Drained(stations, 0, max)
      ensures s.index < |stations| && Left(stations, 0, max)[s.index] == stations[s.index].Cleared()
    {
      NothingIsLost(stations, 0, max, s.index);
    }
  }

  // ---- Every sample is reported at most once

  datatype Event =
    | Gathered(i: nat, station: Station)   // the driver's new data for one station
    | Located                              // a position used the lowest ready station
    | Captured

  function Step(stations: seq<Station>, e: Event): (r: seq<Station>)
    ensures |r| == |stations|
  {
    match e
    case Gathered(i, station) => if i < |stations| then stations[i := station] else stations
    case Located =>
      var i := FirstReady(stations);
      if i < |stations| then stations[i := stations[i].Cleared()] else stations
    case Captured => Left(stations, 0, MAX_SAMPLES)
  }

  function After(stations: seq<Station>, es: seq<Event>): (r: seq<Station>)
    ensures |r| == |stations|
  {
    if es == [] then stations else Step(After(stations, es[..|es| - 1]), es[|es| - 1])
  }

  /** How often station `i` came to have a new sample. */
  function Arrivals(stations: seq<Station>, es: seq<Event>, i: nat): nat
    requires i < |stations|
  {
    if es == [] then 0
    else
      var before, e := After(stations, es[..|es| - 1]), es[|es| - 1];
      Arrivals(stations, es[..|es| - 1], i)
      + if e.Gathered? && e.i == i && e.station.Ready() && !before[i].Ready() then 1 else 0
  }

  /** How often captures reported station `i`. */
  function Reported(stations: seq<Station>, es: seq<Event>, i: nat): nat
    requires i < |stations|
  {
    if es == [] then 0
    else
      var before, e := After(stations, es[..|es| - 1]), es[|es| - 1];
      Reported(stations, es[..|es| - 1], i)
      + if e.Captured? && Reports(Drained(before, 0, MAX_SAMPLES), i) then 1 else 0
  }

  function Waiting(s: Station): nat {
    if s.Ready() then 1 else 0
  }

  /** Over every run, a station is reported at most once for each sample that arrived. */
  lemma {:induction false} ReportedAtMostOnce(stations: seq<Station>, es: seq<Event>, i: nat)
    requires i < |stations|
    ensures Reported(stations, es, i) + Waiting(After(stations, es)[i])
      <= Arrivals(stations, es, i) + Waiting(stations[i])
    decreases |es|
  {
    if es != [] {
      ReportedAtMostOnce(stations, es[..|es| - 1], i);
      var before := After(stations, es[..|es| - 1]);
      NothingIsLost(before, 0, MAX_SAMPLES, i);
      DrainedInOrder(before, 0, MAX_SAMPLES);
    }
  }

  // ---- The frame

  function Bytes4(x: u32): (r: seq<Byte>)
    ensures |r| == 4
  {
    var x1 := x / 0x100;
    var x2 := x1 / 0x100;
    [x % 0x100, x1 % 0x100, x2 % 0x100, x2 / 0x100]
  }

  lemma WordOfBytes4(x: u32)
    ensures Calibration.Word(Bytes4(x)) == x
  {
  }

  lemma Bytes4OfWord(b: seq<Byte>)
    requires |b| == 4
    ensures Bytes4(Calibration.Word(b)) == b
  {
    var x3: int := b[3];
    var x2 := b[2] + 0x100 * x3;
    var x1 := b[1] + 0x100 * x2;
    var x := b[0] + 0x100 * x1;
    assert x == Calibration.Word(b);
    Digit(b[0], x1);
    Digit(b[1], x2);
    Digit(b[2], x3);
  }

  lemma Digit(low: Byte, high: nat)
    ensures (low + 0x100 * high) / 0x100 == high && (low + 0x100 * high) % 0x100 == low
  {
  }

  /** A sample whose index fits its byte. */
  type SmallSample = s: Sample | s.index < 0x100 witness Sample(0, 0, 0)

  function EncodeSample(s: SmallSample): (r: seq<Byte>)
    ensures |r| == SAMPLE_SIZE
  {
    [s.index] + Bytes4(s.count1) + Bytes4(s.count2)
  }

  function DecodeSample(b: seq<Byte>): SmallSample
    requires |b| == SAMPLE_SIZE
  {
    Sample(b[0], Calibration.Word(b[1..5]), Calibration.Word(b[5..9]))
  }

  lemma SampleRoundTrip(s: SmallSample)
    ensures DecodeSample(EncodeSample(s)) == s
  {
    hide Calibration.Word;
    WordOfBytes4(s.count1);
    WordOfBytes4(s.count2);
    assert EncodeSample(s)[1..5] == Bytes4(s.count1) && EncodeSample(s)[5..9] == Bytes4(s.count2);
  }

  lemma SampleBytesRoundTrip(b: seq<Byte>)
    requires |b| == SAMPLE_SIZE
    ensures EncodeSample(DecodeSample(b)) == b
  {
    hide Calibration.Word, Bytes4;
    Bytes4OfWord(b[1..5]);
    Bytes4OfWord(b[5..9]);
    assert b == [b[0]] + b[1..5] + b[5..9];
  }

  function EncodeSamples(samples: seq<SmallSample>): (r: seq<Byte>)
    ensures |r| == SAMPLE_SIZE * |samples|
  {
    if samples == [] then [] else EncodeSamples(samples[..|samples| - 1]) + EncodeSample(samples[|samples| - 1])
  }

  /** [tag][index:1][count1:4][count2:4]..., counts little-endian. */
  function EncodeFrame(samples: seq<SmallSample>): seq<Byte> {
    [SWRMT_LH2_CALIB_TAG] + EncodeSamples(samples)
  }

  function DecodeSamples(bytes: seq<Byte>): seq<SmallSample>
    requires |bytes| % SAMPLE_SIZE == 0
  {
    if bytes == [] then []
    else DecodeSamples(bytes[..|bytes| - SAMPLE_SIZE]) + [DecodeSample(bytes[|bytes| - SAMPLE_SIZE..])]
  }

  /** What the documented layout says a log payload carries; other payloads are text. */
  function DecodeFrame(bytes: seq<Byte>): Option<seq<SmallSample>> {
    if |bytes| % SAMPLE_SIZE == 1 && bytes[0] == SWRMT_LH2_CALIB_TAG then Some(DecodeSamples(bytes[1..])) else None
  }

  lemma {:induction false} DecodeEncodedSamples(samples: seq<SmallSample>)
    ensures DecodeSamples(EncodeSamples(samples)) == samples
    decreases |samples|
  {
    if samples != [] {
      var init, s := samples[..|samples| - 1], samples[|samples| - 1];
      DecodeEncodedSamples(init);
      SampleRoundTrip(s);
      hide EncodeSample, DecodeSample;
      var bytes, n := EncodeSamples(samples), |EncodeSamples(init)|;
      assert bytes[..n] == EncodeSamples(init) && bytes[n..] == EncodeSample(s);
    }
  }

  lemma {:induction false} EncodeDecodedSamples(bytes: seq<Byte>)
    requires |bytes| % SAMPLE_SIZE == 0
    ensures EncodeSamples(DecodeSamples(bytes)) == bytes
    decreases |bytes|
  {
    if bytes != [] {
      var n := |bytes| - SAMPLE_SIZE;
      EncodeDecodedSamples(bytes[..n]);
      SampleBytesRoundTrip(bytes[n..]);
      hide EncodeSample, DecodeSample;
      var samples, front := DecodeSamples(bytes), DecodeSamples(bytes[..n]);
      assert samples == front + [DecodeSample(bytes[n..])];
      hide DecodeSamples;
      assert samples[..|samples| - 1] == front && samples[|samples| - 1] == DecodeSample(bytes[n..]);
      assert bytes == bytes[..n] + bytes[n..];
    }
  }

  /** Frames and sample lists correspond one to one, and a frame fits the log buffer exactly if it carries at most
      as many samples as a capture drains. */
  lemma FrameRoundTrip(samples: seq<SmallSample>, bytes: seq<Byte>)
    ensures DecodeFrame(bytes) == Some(samples) <==> bytes == EncodeFrame(samples)
    ensures |EncodeFrame(samples)| <= 127 <==> |samples| <= 14 == MAX_SAMPLES
  {
    hide EncodeSamples, DecodeSamples;
    DecodeEncodedSamples(samples);
    assert EncodeFrame(samples)[1..] == EncodeSamples(samples);
    if DecodeFrame(bytes) == Some(samples) {
      EncodeDecodedSamples(bytes[1..]);
      assert bytes == [bytes[0]] + bytes[1..];
    }
  }

  /** A capture is a frame that fits the log, and the host reads the drained samples back from it. */
  lemma CaptureIsReadBack(stations: seq<Station>)
    requires |stations| <= 0x100
    ensures var samples := Drained(stations, 0, MAX_SAMPLES);
      (forall s :: s in samples ==> s.index < 0x100)
      && |EncodeFrame(samples)| <= LOG_CAPACITY && DecodeFrame(EncodeFrame(samples)) == Some(samples)
  {
    DrainedInOrder(stations, 0, MAX_SAMPLES);
    FrameRoundTrip(Drained(stations, 0, MAX_SAMPLES), EncodeFrame(Drained(stations, 0, MAX_SAMPLES)));
  }

  /** The layout byte by byte: 0xCA, and for each sample its index and its two counts, lowest byte first. */
  lemma {:induction false} FrameLayout(samples: seq<SmallSample>, k: nat)
    requires k < |samples|
    ensures var frame := EncodeFrame(samples);
      && |frame| == 1 + 9 * |samples| && frame[0] == 0xCA && frame[1 + 9 * k] == samples[k].index
      && (forall b :: 0 <= b < 4 ==>
            && frame[2 + 9 * k + b] == Calibration.LittleEndianByte(samples[k].count1, b)
            && frame[6 + 9 * k + b] == Calibration.LittleEndianByte(samples[k].count2, b))
    decreases |samples|
  {
    var front, last := samples[..|samples| - 1], samples[|samples| - 1];
    var body, before := EncodeSamples(samples), EncodeSamples(front);
    assert body == before + EncodeSample(last);
    if k < |front| {
      FrameLayout(front, k);
      assert forall p :: 0 <= p < |before| ==> EncodeFrame(samples)[1 + p] == before[p] == EncodeFrame(front)[1 + p];
    } else {
      BytesAreLittleEndian(last.count1);
      BytesAreLittleEndian(last.count2);
      var bytes := EncodeSample(last);
      assert forall p :: 0 <= p < 9 ==> EncodeFrame(samples)[1 + 9 * k + p] == bytes[p];
      hide EncodeSamples, Calibration.LittleEndianByte, Bytes4;
    }
  }

  lemma BytesAreLittleEndian(x: u32)
    ensures forall b :: 0 <= b < 4 ==> Bytes4(x)[b] == Calibration.LittleEndianByte(x, b)
  {
  }
}

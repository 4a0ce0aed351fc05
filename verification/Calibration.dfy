/** Lighthouse calibration: the host's blob, the packets of a session, the network core's
    configuration in RAM and in its flash page, and what is left of it all after a reset. */
module Calibration {
  import opened Flash

  const LH2_BASESTATION_COUNT_MAX := 16
  const MATRIX_WORDS := 9
  const MATRIX_SIZE := 36
  const ALL_WORDS := 144
  const HEADER_WORDS := 4
  const CONFIG_WORDS := 148
  const PAGE_WORDS := 512
  const BLANK_WORD: u32 := 0xFFFF_FFFF
  const SWARMIT_CONFIG_MAGIC_VALUE: u32 := 0x5753_524D
  const SWARMIT_DEFAULT_NET_ID: u32 := 0xA000

  type Byte = x: int | 0 <= x < 256
  type Matrix = m: seq<u32> | |m| == MATRIX_WORDS witness seq(MATRIX_WORDS, _ => 0)
  type Matrices = m: seq<u32> | |m| == ALL_WORDS witness seq(ALL_WORDS, _ => 0)
  type Page = p: seq<u32> | |p| == PAGE_WORDS witness seq(PAGE_WORDS, _ => 0)

  /** `swarmit_config_t`, its words in order; the matrices are flattened. */
  datatype Config = Config(magic: u32, hasNetId: u32, netId: u32, count: u32, matrices: Matrices)

  datatype Packet = Packet(count: u32, index: u32, matrix: Matrix)

  /** The network core: configuration in RAM and flash, calibration in shared memory, network in use. */
  datatype NetState = NetState(config: Config, page: Page, sharedCount: u32, shared: Matrices, netIdInUse: u32)

  function MatrixAt(ms: Matrices, i: nat): Matrix
    requires i < LH2_BASESTATION_COUNT_MAX
  {
    ms[MATRIX_WORDS * i..MATRIX_WORDS * i + MATRIX_WORDS]
  }

  function SetMatrix(ms: Matrices, i: nat, m: Matrix): Matrices
    requires i < LH2_BASESTATION_COUNT_MAX
  {
    ms[..MATRIX_WORDS * i] + m + ms[MATRIX_WORDS * i + MATRIX_WORDS..]
  }

  function ZeroMatrix(): Matrix { seq(MATRIX_WORDS, _ => 0) }
  function ZeroMatrices(): Matrices { seq(ALL_WORDS, _ => 0) }

  lemma SetMatrixAt(ms: Matrices, i: nat, m: Matrix, j: nat)
    requires i < LH2_BASESTATION_COUNT_MAX && j < LH2_BASESTATION_COUNT_MAX
    ensures MatrixAt(SetMatrix(ms, i, m), j) == if j == i then m else MatrixAt(ms, j)
  {
  }

  lemma ZeroMatrixAt(j: nat)
    requires j < LH2_BASESTATION_COUNT_MAX
    ensures MatrixAt(ZeroMatrices(), j) == ZeroMatrix()
  {
  }

  /** Matrix by matrix, flattened matrices are determined. */
  lemma MatricesEqual(a: Matrices, b: Matrices)
    requires forall j :: 0 <= j < LH2_BASESTATION_COUNT_MAX ==> MatrixAt(a, j) == MatrixAt(b, j)
    ensures a == b
  {
    forall k | 0 <= k < ALL_WORDS ensures a[k] == b[k] {
      assert a[k] == MatrixAt(a, k / MATRIX_WORDS)[k % MATRIX_WORDS];
      assert b[k] == MatrixAt(b, k / MATRIX_WORDS)[k % MATRIX_WORDS];
    }
  }

  // ----- the device

  /** Bit by bit: a flash word keeps only the bits set both before and in the word written. */
  function BitAnd(x: nat, y: nat): nat {
    if x == 0 || y == 0 then 0 else 2 * BitAnd(x / 2, y / 2) + (if x % 2 == 1 && y % 2 == 1 then 1 else 0)
  }

  function Ones(bits: nat): nat {
    if bits == 0 then 0 else 2 * Ones(bits - 1) + 1
  }

  function Power2(bits: nat): nat {
    if bits == 0 then 1 else 2 * Power2(bits - 1)
  }

  lemma {:induction false} AndOnes(bits: nat, y: nat)
    requires y < Power2(bits)
    ensures BitAnd(Ones(bits), y) == y
  {
    if bits > 0 {
      AndOnes(bits - 1, y / 2);
    }
  }

  /** A blank word takes any value unchanged. */
  lemma BlankTakesWord(y: u32)
    ensures BitAnd(BLANK_WORD, y) == y
  {
    assert Ones(8) == 0xFF && Power2(8) == 0x100;
    assert Ones(16) == 0xFFFF && Power2(16) == 0x1_0000;
    assert Ones(24) == 0xFF_FFFF && Power2(24) == 0x100_0000;
    assert Ones(32) == BLANK_WORD && Power2(32) == ADDRESS_SPACE;
    AndOnes(32, y);
  }

  function Encode(c: Config): (r: seq<u32>)
    ensures |r| == CONFIG_WORDS
  {
    [c.magic, c.hasNetId, c.netId, c.count] + c.matrices
  }

  function Decode(page: Page): Config {
    Config(page[0], page[1], page[2], page[3], page[HEADER_WORDS..CONFIG_WORDS])
  }

  function BlankPage(): Page { seq(PAGE_WORDS, _ => BLANK_WORD) }

  /** The page after an erase and a write of `c`. */
  function CommittedPage(c: Config): Page {
    Encode(c) + seq(PAGE_WORDS - CONFIG_WORDS, _ => BLANK_WORD)
  }

  lemma DecodeCommitted(c: Config)
    ensures Decode(CommittedPage(c)) == c
  {
    assert CommittedPage(c)[HEADER_WORDS..CONFIG_WORDS] == c.matrices;
  }

  predicate ValidCount(count: u32) {
    0 < count <= LH2_BASESTATION_COUNT_MAX
  }

  function ChosenNetId(c: Config): u32 {
    if c.magic == SWARMIT_CONFIG_MAGIC_VALUE && c.hasNetId == 1 then c.netId % 0x1_0000 else SWARMIT_DEFAULT_NET_ID
  }

  /** `_load_config`, run at every boot. */
  function Load(n: NetState): NetState {
    var c := Decode(n.page);
    var calibrated := c.magic == SWARMIT_CONFIG_MAGIC_VALUE && ValidCount(c.count);
    NetState(c, n.page, if calibrated then c.count else n.sharedCount,
             if calibrated then c.matrices[..MATRIX_WORDS * c.count] + n.shared[MATRIX_WORDS * c.count..] else n.shared,
             ChosenNetId(c))
  }

  /** A reset: the application core's start-up code clears shared memory, then the network core loads. */
  function Restart(n: NetState): NetState {
    Load(n.(sharedCount := 0, shared := ZeroMatrices()))
  }

  predicate Accepted(pkt: Packet) {
    pkt.index < LH2_BASESTATION_COUNT_MAX && ValidCount(pkt.count) && pkt.index < pkt.count
  }

  /** A calibration packet gathered in RAM. */
  function Gather(c: Config, pkt: Packet): Config {
    if !Accepted(pkt) then c
    else c.(count := pkt.count,
            matrices := SetMatrix(if pkt.index == 0 then ZeroMatrices() else c.matrices, pkt.index, pkt.matrix))
  }

  predicate Commits(pkt: Packet) {
    Accepted(pkt) && pkt.index == pkt.count - 1
  }

  function Commit(n: NetState): NetState {
    var c := n.config.(magic := SWARMIT_CONFIG_MAGIC_VALUE);
    n.(config := c, page := CommittedPage(c))
  }

  /** One packet heard while ready; after a commit the core does nothing until it has been reset. */
  function Hear(n: NetState, pkt: Packet): NetState {
    var gathered := n.(config := Gather(n.config, pkt));
    if Commits(pkt) then Restart(Commit(gathered)) else gathered
  }

  function HearAll(n: NetState, pkts: seq<Packet>): NetState
    decreases |pkts|
  {
    if pkts == [] then n else HearAll(Hear(n, pkts[0]), pkts[1..])
  }

  // ----- network id

  datatype Event = Heard(pkt: Packet) | Reset

  function Step(n: NetState, ev: Event): NetState {
    match ev
    case Heard(pkt) => Hear(n, pkt)
    case Reset => Restart(n)
  }

  function After(n: NetState, events: seq<Event>): NetState
    decreases |events|
  {
    if events == [] then n else After(Step(n, events[0]), events[1..])
  }

  /** RAM agrees with the page on the fields calibration does not touch. */
  predicate Booted(n: NetState) {
    n.config.magic == n.page[0] && n.config.hasNetId == n.page[1] && n.config.netId == n.page[2]
    && n.netIdInUse == ChosenNetId(n.config)
  }

  /** Stamping the magic value does not change the network the page selects. */
  predicate StampSafe(c: Config) {
    c.magic == SWARMIT_CONFIG_MAGIC_VALUE || c.hasNetId != 1 || c.netId % 0x1_0000 == SWARMIT_DEFAULT_NET_ID
  }

  /** Over any run of packets and resets the network id fields and the network in use stay what they were,
      for a valid or virgin page and in general whenever stamping the magic is safe. */
  lemma {:induction false} NetIdPreserved(n: NetState, events: seq<Event>)
    requires Booted(n) && StampSafe(n.config)
    ensures var m := After(n, events);
      && Booted(m) && StampSafe(m.config)
      && m.page[1] == n.page[1] && m.page[2] == n.page[2] && m.netIdInUse == n.netIdInUse
    decreases |events|
  {
    if events != [] {
      StepKeepsNetId(n, events[0]);
      NetIdPreserved(Step(n, events[0]), events[1..]);
    }
  }

  lemma StepKeepsNetId(n: NetState, ev: Event)
    requires Booted(n) && StampSafe(n.config)
    ensures var m := Step(n, ev);
      && Booted(m) && StampSafe(m.config)
      && m.page[1] == n.page[1] && m.page[2] == n.page[2] && m.netIdInUse == n.netIdInUse
  {
    if ev.Heard? {
      DecodeCommitted(n.config.(magic := SWARMIT_CONFIG_MAGIC_VALUE));
    }
  }

  /** The condition is exact: a commit keeps the network in use if and only if the stamp is safe. */
  lemma CommitKeepsNetworkExactly(n: NetState, pkt: Packet)
    requires Booted(n) && Commits(pkt)
    ensures Hear(n, pkt).netIdInUse == n.netIdInUse <==> StampSafe(n.config)
  {
    DecodeCommitted(Gather(n.config, pkt).(magic := SWARMIT_CONFIG_MAGIC_VALUE));
  }

  lemma VirginPageIsSafe(n: NetState)
    requires n.page == BlankPage()
    ensures Booted(Restart(n)) && StampSafe(Restart(n).config) && Restart(n).netIdInUse == SWARMIT_DEFAULT_NET_ID
  {
  }

  // ----- sessions

  function Word(b: seq<Byte>): u32
    requires |b| == 4
  {
    b[0] as int + 0x100 * (b[1] as int) + 0x1_0000 * (b[2] as int) + 0x100_0000 * (b[3] as int)
  }

  /** The nine little-endian words of a matrix as the host reads it from the file. */
  function Words(b: seq<Byte>): Matrix
    requires |b| == MATRIX_SIZE
  {
    seq(MATRIX_WORDS, k requires 0 <= k < MATRIX_WORDS => Word(b[4 * k..4 * k + 4]))
  }

  /** A file the host accepts: a count byte from 1 to 16 and that many matrices. */
  predicate ValidBlob(blob: seq<Byte>) {
    |blob| > 0 && ValidCount(blob[0]) && |blob| == 1 + MATRIX_SIZE * blob[0]
  }

  type Blob = b: seq<Byte> | ValidBlob(b) witness [1] + seq(MATRIX_SIZE, _ => 0)

  function BlobMatrix(blob: Blob, i: nat): Matrix
    requires i < blob[0]
  {
    var start := MATRIX_SIZE * i;
    Words(blob[1..][start..start + MATRIX_SIZE])
  }

  function BlobPacket(blob: Blob, i: nat): Packet
    requires i < blob[0]
  {
    Packet(blob[0], i, BlobMatrix(blob, i))
  }

  function Copies<T>(pkt: T, count: nat): seq<T> {
    if count == 0 then [] else Copies(pkt, count - 1) + [pkt]
  }

  /** `copies[i]` copies of each packet below `k`, in order. */
  function Stream(blob: Blob, copies: seq<nat>, k: nat): seq<Packet>
    requires k <= blob[0] <= |copies|
  {
    if k == 0 then [] else Stream(blob, copies, k - 1) + Copies(BlobPacket(blob, k - 1), copies[k - 1])
  }

  lemma {:induction false} HearAllConcat(n: NetState, xs: seq<Packet>, ys: seq<Packet>)
    ensures HearAll(n, xs + ys) == HearAll(HearAll(n, xs), ys)
    decreases |xs|
  {
    if xs == [] {
      assert xs + ys == ys;
    } else {
      hide Hear;
      HearAllConcat(Hear(n, xs[0]), xs[1..], ys);
      assert (xs + ys)[0] == xs[0];
      assert (xs + ys)[1..] == xs[1..] + ys;
    }
  }

  lemma GatherTwice(c: Config, pkt: Packet)
    ensures Gather(Gather(c, pkt), pkt) == Gather(c, pkt)
  {
  }

  /** Hearing a packet again, even after the reset it caused, changes nothing: the page committed again
      is the same word for word. */
  lemma HearTwice(n: NetState, pkt: Packet)
    ensures Hear(Hear(n, pkt), pkt) == Hear(n, pkt)
    ensures Commits(pkt) ==>
      Restart(Hear(n, pkt)) == Hear(n, pkt) && Hear(n, pkt).page == CommittedPage(Hear(n, pkt).config)
  {
    GatherTwice(n.config, pkt);
    if Commits(pkt) {
      var c := Gather(n.config, pkt).(magic := SWARMIT_CONFIG_MAGIC_VALUE);
      DecodeCommitted(c);
      var m := Hear(n, pkt);
      assert m.config == c && m.page == CommittedPage(c);
      GatherAfterStamp(n.config, pkt);
      hide Gather, CommittedPage, Decode;
      var k := MATRIX_WORDS * c.count;
      assert m.shared == c.matrices[..k] + ZeroMatrices()[k..];
    }
  }

  lemma GatherAfterStamp(c: Config, pkt: Packet)
    ensures var stamped := Gather(c, pkt).(magic := SWARMIT_CONFIG_MAGIC_VALUE); Gather(stamped, pkt) == stamped
    ensures Accepted(pkt) ==> Gather(c, pkt).count == pkt.count
  {
    GatherTwice(c, pkt);
  }

  lemma {:induction false} HearCopies(n: NetState, pkt: Packet, count: nat)
    ensures HearAll(n, Copies(pkt, count)) == if count == 0 then n else Hear(n, pkt)
    decreases count
  {
    if count > 0 {
      hide Hear;
      HearCopies(n, pkt, count - 1);
      HearAllConcat(n, Copies(pkt, count - 1), [pkt]);
      assert forall m: NetState :: HearAll(m, [pkt]) == Hear(m, pkt) by {
        forall m: NetState ensures HearAll(m, [pkt]) == Hear(m, pkt) {
          HearOne(m, pkt);
        }
      }
      HearTwice(n, pkt);
    }
  }

  lemma HearOne(n: NetState, pkt: Packet)
    ensures HearAll(n, [pkt]) == Hear(n, pkt)
  {
    hide Hear;
    assert [pkt][1..] == [];
    assert HearAll(Hear(n, pkt), []) == Hear(n, pkt);
  }

  /** What slot `j` holds once the packets below `k` have been heard: the blob's matrix if a copy came;
      otherwise zero if index 0 came, and whatever was there before if it did not. */
  function Expected(before: Matrices, blob: Blob, copies: seq<nat>, k: nat, j: nat): Matrix
    requires k <= blob[0] <= |copies| && j < LH2_BASESTATION_COUNT_MAX
  {
    if j < k && copies[j] > 0 then BlobMatrix(blob, j)
    else if k > 0 && copies[0] > 0 then ZeroMatrix()
    else MatrixAt(before, j)
  }

  ghost predicate Gathered(c: Config, was: Config, blob: Blob, copies: seq<nat>, k: nat)
    requires k <= blob[0] <= |copies|
  {
    c.magic == was.magic && c.hasNetId == was.hasNetId && c.netId == was.netId
    && forall j :: 0 <= j < LH2_BASESTATION_COUNT_MAX ==>
       MatrixAt(c.matrices, j) == Expected(was.matrices, blob, copies, k, j)
  }

  lemma GatherNext(c: Config, was: Config, blob: Blob, copies: seq<nat>, k: nat)
    requires k < blob[0] <= |copies| && Gathered(c, was, blob, copies, k)
    ensures Gathered(if copies[k] == 0 then c else Gather(c, BlobPacket(blob, k)), was, blob, copies, k + 1)
  {
    var next := if copies[k] == 0 then c else Gather(c, BlobPacket(blob, k));
    forall j | 0 <= j < LH2_BASESTATION_COUNT_MAX
      ensures MatrixAt(next.matrices, j) == Expected(was.matrices, blob, copies, k + 1, j)
    {
      if copies[k] > 0 {
        SetMatrixAt(if k == 0 then ZeroMatrices() else c.matrices, k, BlobMatrix(blob, k), j);
        ZeroMatrixAt(j);
      }
    }
  }

  lemma NothingGathered(c: Config, blob: Blob, copies: seq<nat>)
    requires blob[0] <= |copies|
    ensures Gathered(c, c, blob, copies, 0)
  {
  }

  /** A packet below the last index is only gathered. */
  lemma NotLast(n: NetState, blob: Blob, i: nat)
    requires i + 1 < blob[0]
    ensures Hear(n, BlobPacket(blob, i)) == n.(config := Gather(n.config, BlobPacket(blob, i)))
  {
    hide Gather, BlobMatrix;
  }

  lemma HearNothing(n: NetState)
    ensures HearAll(n, []) == n
  {
  }

  /** Before the last index nothing leaves RAM. */
  lemma {:induction false} BeforeLast(n: NetState, blob: Blob, copies: seq<nat>, k: nat)
    requires k < blob[0] <= |copies|
    ensures var m := HearAll(n, Stream(blob, copies, k));
      m == n.(config := m.config) && Gathered(m.config, n.config, blob, copies, k)
  {
    hide HearAll, Hear, Gather, Gathered, BlobPacket, Copies;
    if k == 0 {
      HearNothing(n);
      NothingGathered(n.config, blob, copies);
    } else {
      BeforeLast(n, blob, copies, k - 1);
      var before := HearAll(n, Stream(blob, copies, k - 1));
      var pkt := BlobPacket(blob, k - 1);
      HearAllConcat(n, Stream(blob, copies, k - 1), Copies(pkt, copies[k - 1]));
      HearCopies(before, pkt, copies[k - 1]);
      GatherNext(before.config, n.config, blob, copies, k - 1);
      NotLast(before, blob, k - 1);
    }
  }

  predicate Stamped(c: Config, count: nat) {
    c.magic == SWARMIT_CONFIG_MAGIC_VALUE && c.count == count
  }

  /** A whole session over a lossy in-order link. If some copy of the last index is heard, then after the
      commit and the reset the shared memory has the blob's count and in every slot what `Expected` says;
      otherwise page and shared memory are untouched. */
  lemma SessionOutcome(n: NetState, blob: Blob, copies: seq<nat>)
    requires |copies| == blob[0]
    ensures var m := HearAll(n, Stream(blob, copies, blob[0])); var last := blob[0] - 1;
      && (copies[last] == 0 ==> m.page == n.page && m.shared == n.shared && m.sharedCount == n.sharedCount)
      && (copies[last] > 0 ==>
            && m.sharedCount == blob[0] && m.page == CommittedPage(m.config) && Stamped(m.config, blob[0])
            && (forall j :: 0 <= j < blob[0] ==>
               MatrixAt(m.shared, j) == Expected(n.config.matrices, blob, copies, blob[0], j))
            && (forall j :: blob[0] <= j < LH2_BASESTATION_COUNT_MAX ==> MatrixAt(m.shared, j) == ZeroMatrix())
            && (forall j :: 0 <= j < LH2_BASESTATION_COUNT_MAX ==>
                  MatrixAt(m.config.matrices, j) == Expected(n.config.matrices, blob, copies, blob[0], j)))
  {
    var last := blob[0] - 1;
    var pkt := BlobPacket(blob, last);
    var before := HearAll(n, Stream(blob, copies, last));
    BeforeLast(n, blob, copies, last);
    HearAllConcat(n, Stream(blob, copies, last), Copies(pkt, copies[last]));
    HearCopies(before, pkt, copies[last]);
    if copies[last] > 0 {
      GatherNext(before.config, n.config, blob, copies, last);
      CommitOutcome(before, pkt);
    }
  }

  /** After a commit and a reset, shared memory holds the gathered matrices up to the packet's count, then zeros. */
  lemma CommitOutcome(n: NetState, pkt: Packet)
    requires Commits(pkt)
    ensures var m := Hear(n, pkt);
      && m.config == Gather(n.config, pkt).(magic := SWARMIT_CONFIG_MAGIC_VALUE) && m.page == CommittedPage(m.config)
      && m.sharedCount == pkt.count && Stamped(m.config, pkt.count)
      && (forall j :: 0 <= j < pkt.count ==> MatrixAt(m.shared, j) == MatrixAt(Gather(n.config, pkt).matrices, j))
      && forall j :: pkt.count <= j < LH2_BASESTATION_COUNT_MAX ==> MatrixAt(m.shared, j) == ZeroMatrix()
  {
    var c := Gather(n.config, pkt).(magic := SWARMIT_CONFIG_MAGIC_VALUE);
    DecodeCommitted(c);
    GatherAfterStamp(n.config, pkt);
    var m := Hear(n, pkt);
    assert m.config == c;
    hide Gather, CommittedPage, Decode;
    assert m.shared == c.matrices[..MATRIX_WORDS * c.count] + ZeroMatrices()[MATRIX_WORDS * c.count..];
    forall j: nat | j < LH2_BASESTATION_COUNT_MAX
      ensures MatrixAt(m.shared, j) == if j < c.count then MatrixAt(c.matrices, j) else ZeroMatrix()
    {
      ZeroMatrixAt(j);
      SpliceAt(c.matrices, ZeroMatrices(), c.count, j);
    }
  }

  lemma SpliceAt(front: Matrices, back: Matrices, count: nat, j: nat)
    requires count <= LH2_BASESTATION_COUNT_MAX && j < LH2_BASESTATION_COUNT_MAX
    ensures MatrixAt(front[..MATRIX_WORDS * count] + back[MATRIX_WORDS * count..], j)
      == if j < count then MatrixAt(front, j) else MatrixAt(back, j)
  {
    var ms := front[..9 * count] + back[9 * count..];
    if j < count {
      assert ms[9 * j..9 * j + 9] == front[9 * j..9 * j + 9];
    } else {
      assert ms[9 * j..9 * j + 9] == back[9 * j..9 * j + 9];
    }
  }

  // ----- the link

  predicate IsSubsequence<T(==)>(xs: seq<T>, ys: seq<T>)
    decreases |ys|
  {
    if xs == [] then true
    else if ys == [] then false
    else if xs[|xs| - 1] == ys[|ys| - 1] then IsSubsequence(xs[..|xs| - 1], ys[..|ys| - 1])
    else IsSubsequence(xs, ys[..|ys| - 1])
  }

  lemma PeelOne<T>(xs: seq<T>, ys: seq<T>, y: T)
    requires IsSubsequence(xs, ys + [y])
    ensures if xs != [] && xs[|xs| - 1] == y
      then xs == xs[..|xs| - 1] + [y] && IsSubsequence(xs[..|xs| - 1], ys) else IsSubsequence(xs, ys)
  {
    var all := ys + [y];
    assert all[|all| - 1] == y && all[..|all| - 1] == ys;
  }

  /** Of some copies at the end of the stream, some get through. */
  lemma {:induction false} PeelCopies<T>(xs: seq<T>, ys: seq<T>, y: T, sent: nat) returns (front: seq<T>, count: nat)
    requires IsSubsequence(xs, ys + Copies(y, sent))
    ensures IsSubsequence(front, ys)
    ensures xs == front + Copies(y, count)
    decreases sent
  {
    hide IsSubsequence;
    if sent == 0 {
      assert ys + Copies(y, sent) == ys;
      front, count := xs, 0;
      assert xs == front + Copies(y, 0);
    } else {
      var fewer := ys + Copies(y, sent - 1);
      assert ys + Copies(y, sent) == fewer + [y];
      PeelOne(xs, fewer, y);
      if xs != [] && xs[|xs| - 1] == y {
        var shorter := xs[..|xs| - 1];
        var some;
        assert xs == shorter + [y];
        front, some := PeelCopies(shorter, ys, y, sent - 1);
        count := some + 1;
        assert xs == (front + Copies(y, some)) + [y];
        assert Copies(y, count) == Copies(y, some) + [y];
        assert front + Copies(y, count) == (front + Copies(y, some)) + [y];
      } else {
        front, count := PeelCopies(xs, ys, y, sent - 1);
      }
    }
  }

  /** What an in-order lossy link lets through of repeated packets is again repeated packets. */
  lemma {:induction false} LossLeavesCopies(heard: seq<Packet>, blob: Blob, sent: seq<nat>, k: nat)
    returns (copies: seq<nat>)
    requires k <= blob[0] <= |sent| && IsSubsequence(heard, Stream(blob, sent, k))
    ensures |copies| == |sent| && heard == Stream(blob, copies, k)
    decreases k
  {
    if k == 0 {
      copies := seq(|sent|, _ => 0);
    } else {
      hide IsSubsequence;
      var front, last := PeelCopies(heard, Stream(blob, sent, k - 1), BlobPacket(blob, k - 1), sent[k - 1]);
      var some := LossLeavesCopies(front, blob, sent, k - 1);
      copies := some[k - 1 := last];
      StreamIgnores(blob, some, copies, k - 1);
    }
  }

  lemma {:induction false} StreamIgnores(blob: Blob, a: seq<nat>, b: seq<nat>, k: nat)
    requires k <= blob[0] <= |a| == |b| && forall i :: 0 <= i < k ==> a[i] == b[i]
    ensures Stream(blob, a, k) == Stream(blob, b, k)
  {
    if k > 0 {
      StreamIgnores(blob, a, b, k - 1);
    }
  }

  lemma {:induction false} HeardIndexHasCopies(blob: Blob, copies: seq<nat>, k: nat, i: nat)
    requires i < blob[0] && k <= blob[0] <= |copies| && BlobPacket(blob, i) in Stream(blob, copies, k)
    ensures i < k && copies[i] > 0
  {
    if BlobPacket(blob, i) in Stream(blob, copies, k - 1) {
      HeardIndexHasCopies(blob, copies, k - 1, i);
    } else {
      OnlyCopies(BlobPacket(blob, k - 1), copies[k - 1]);
    }
  }

  lemma {:induction false} OnlyCopies<T>(pkt: T, count: nat)
    ensures forall p :: p in Copies(pkt, count) ==> p == pkt && count > 0
  {
    if count > 0 {
      OnlyCopies(pkt, count - 1);
    }
  }

  lemma {:induction false} CopiesAreHeard(blob: Blob, copies: seq<nat>, k: nat, i: nat)
    requires i < k <= blob[0] <= |copies| && copies[i] > 0
    ensures BlobPacket(blob, i) in Stream(blob, copies, k)
  {
    if i < k - 1 {
      CopiesAreHeard(blob, copies, k - 1, i);
    } else {
      var pkt := BlobPacket(blob, i);
      assert Copies(pkt, copies[i]) == Copies(pkt, copies[i] - 1) + [pkt];
      assert (Copies(pkt, copies[i] - 1) + [pkt])[|Copies(pkt, copies[i] - 1)|] == pkt;
    }
  }

  /** What slot `j` holds after a session in which `heard` came through. */
  function SlotAfter(was: Matrices, blob: Blob, heard: seq<Packet>, j: nat): Matrix
    requires j < LH2_BASESTATION_COUNT_MAX
  {
    if j < blob[0] && BlobPacket(blob, j) in heard then BlobMatrix(blob, j)
    else if BlobPacket(blob, 0) in heard then ZeroMatrix()
    else MatrixAt(was, j)
  }

  /** Five copies of each packet over a lossy in-order link, whatever is lost. If the last index is heard, the shared
      count is the blob's and the page is committed: each of its slots holds the blob's matrix if one of its copies
      was heard, zero if only index 0 was, and what RAM held before otherwise. Shared memory holds the same up to the
      count and zeros from there. If the last index is not heard, page and shared memory stay. */
  lemma LossySession(n: NetState, blob: Blob, heard: seq<Packet>)
    requires IsSubsequence(heard, Stream(blob, seq(blob[0], _ => 5), blob[0]))
    ensures var m := HearAll(n, heard);
      if BlobPacket(blob, blob[0] - 1) in heard
      then m.sharedCount == blob[0] && m.page == CommittedPage(m.config) && Stamped(m.config, blob[0])
           && forall j :: 0 <= j < LH2_BASESTATION_COUNT_MAX ==>
                MatrixAt(m.config.matrices, j) == SlotAfter(n.config.matrices, blob, heard, j)
                && MatrixAt(m.shared, j) ==
                   if j < blob[0] then SlotAfter(n.config.matrices, blob, heard, j) else ZeroMatrix()
      else m.page == n.page && m.shared == n.shared && m.sharedCount == n.sharedCount
  {
    var copies := LossLeavesCopies(heard, blob, seq(blob[0], _ => 5), blob[0]);
    forall i: nat | i < blob[0] ensures copies[i] > 0 <==> BlobPacket(blob, i) in heard {
      HeardExactlyIfCopied(blob, copies, i);
    }
    SessionOutcome(n, blob, copies);
    hide HearAll, Stream, IsSubsequence, BlobPacket, BlobMatrix, MatrixAt, CommittedPage;
  }

  lemma HeardExactlyIfCopied(blob: Blob, copies: seq<nat>, i: nat)
    requires i < blob[0] <= |copies|
    ensures copies[i] > 0 <==> BlobPacket(blob, i) in Stream(blob, copies, blob[0])
  {
    hide Stream, BlobPacket;
    if copies[i] > 0 {
      CopiesAreHeard(blob, copies, blob[0], i);
    } else if BlobPacket(blob, i) in Stream(blob, copies, blob[0]) {
      HeardIndexHasCopies(blob, copies, blob[0], i);
    }
  }

  /** The blob's matrices, followed by zeros. */
  function BlobMemory(blob: Blob): Matrices {
    seq(ALL_WORDS, k requires 0 <= k < ALL_WORDS =>
      if k / MATRIX_WORDS < blob[0] then BlobMatrix(blob, k / MATRIX_WORDS)[k % MATRIX_WORDS] else 0)
  }

  lemma BlobMemoryAt(blob: Blob, j: nat)
    requires j < LH2_BASESTATION_COUNT_MAX
    ensures MatrixAt(BlobMemory(blob), j) == if j < blob[0] then BlobMatrix(blob, j) else ZeroMatrix()
  {
    hide BlobMatrix;
    forall i | 0 <= i < MATRIX_WORDS
      ensures MatrixAt(BlobMemory(blob), j)[i] == if j < blob[0] then BlobMatrix(blob, j)[i] else 0
    {
      SlotAndEntry(j, i);
      assert MatrixAt(BlobMemory(blob), j)[i] == BlobMemory(blob)[9 * j + i];
    }
  }

  lemma SlotAndEntry(j: nat, i: nat)
    requires i < 9
    ensures (9 * j + i) / 9 == j && (9 * j + i) % 9 == i
  {
  }

  /** The round trip: if of each index at least one copy is heard, then after commit and reset the shared count is the
      blob's, and shared memory and the committed page hold the blob's matrices followed by zeros, and nothing else. */
  lemma CalibrationRoundTrip(n: NetState, blob: Blob, heard: seq<Packet>)
    requires IsSubsequence(heard, Stream(blob, seq(blob[0], _ => 5), blob[0]))
    requires forall i: nat :: i < blob[0] ==> BlobPacket(blob, i) in heard
    ensures var m := HearAll(n, heard);
      m.sharedCount == blob[0] && m.shared == BlobMemory(blob)
      && m.config.matrices == BlobMemory(blob) && m.page == CommittedPage(m.config) && Stamped(m.config, blob[0])
  {
    LossySession(n, blob, heard);
    var m := HearAll(n, heard);
    hide HearAll, Stream, IsSubsequence, BlobPacket, BlobMatrix, BlobMemory, MatrixAt, CommittedPage;
    forall j: nat | j < LH2_BASESTATION_COUNT_MAX
      ensures MatrixAt(m.shared, j) == MatrixAt(m.config.matrices, j) == MatrixAt(BlobMemory(blob), j)
    {
      BlobMemoryAt(blob, j);
    }
    MatricesEqual(m.shared, BlobMemory(blob));
    MatricesEqual(m.config.matrices, BlobMemory(blob));
  }

  // ----- in the file's own bytes

  /** Byte `k` of a word, lowest first. */
  function LittleEndianByte(w: u32, k: nat): nat {
    (if k == 0 then w else if k == 1 then w / 0x100 else if k == 2 then w / 0x1_0000 else w / 0x100_0000) % 0x100
  }

  lemma ByteOfWord(b: seq<Byte>, k: nat)
    requires |b| == 4 && k < 4
    ensures LittleEndianByte(Word(b), k) == b[k]
  {
    var high: int := b[3];
    var upper := b[2] + 0x100 * high;
    var most := b[1] + 0x100 * upper;
    assert Word(b) == b[0] + 0x100 * most;
    Shifted(Word(b), b[0], most);
    Shifted(most, b[1], upper);
    Shifted(upper, b[2], high);
    assert Word(b) / 0x1_0000 == most / 0x100 && Word(b) / 0x100_0000 == upper / 0x100;
  }

  lemma Shifted(x: nat, low: Byte, high: nat)
    requires x == low + 0x100 * high
    ensures x / 0x100 == high && x % 0x100 == low
  {
  }

  /** Matrix `i` is made of the file's bytes from 1 + 36 i on, in order. */
  lemma MatrixBytes(blob: Blob, i: nat, k: nat)
    requires i < blob[0] && k < 36
    ensures LittleEndianByte(BlobMatrix(blob, i)[k / 4], k % 4) == blob[1 + 36 * i + k]
  {
    var bytes := blob[1..][36 * i..36 * i + 36];
    var word := bytes[4 * (k / 4)..4 * (k / 4) + 4];
    ByteOfWord(word, k % 4);
    assert word[k % 4] == bytes[k] == blob[1..][36 * i + k];
    assert BlobMatrix(blob, i)[k / 4] == Word(word);
  }

  /** The packets in the file's bytes: packet `i` says count, index and the 36 bytes of matrix `i`. */
  predicate CarriesFile(pkt: Packet, file: seq<Byte>, i: nat) {
    && pkt.count == |file| / 36 && pkt.index == i && |file| >= 37 + 36 * i
    && forall k :: 0 <= k < 36 ==> LittleEndianByte(pkt.matrix[k / 4], k % 4) == file[1 + 36 * i + k]
  }

  lemma BlobPacketCarriesFile(blob: Blob, i: nat)
    requires i < blob[0]
    ensures CarriesFile(BlobPacket(blob, i), blob, i)
  {
    forall k | 0 <= k < 36 ensures LittleEndianByte(BlobPacket(blob, i).matrix[k / 4], k % 4) == blob[1 + 36 * i + k] {
      MatrixBytes(blob, i, k);
    }
  }

  /** Packet by packet, `packets` are the file's packets in order, five of each. */
  predicate FiveOfEach(packets: seq<Packet>, file: seq<Byte>, n: nat) {
    |packets| == 5 * n && forall p :: 0 <= p < |packets| ==> CarriesFile(packets[p], file, p / 5)
  }

  lemma {:induction false} StreamCarriesFile(blob: Blob, n: nat)
    requires n <= blob[0]
    ensures FiveOfEach(Stream(blob, seq(blob[0], _ => 5), n), blob, n)
  {
    if n > 0 {
      StreamCarriesFile(blob, n - 1);
      BlobPacketCarriesFile(blob, n - 1);
      StreamFive(blob, n - 1);
      hide CarriesFile, BlobPacket, Stream, FiveOfEach;
      FiveMore(Stream(blob, seq(blob[0], _ => 5), n - 1), BlobPacket(blob, n - 1), blob, n - 1);
    }
  }

  lemma StreamFive(blob: Blob, n: nat)
    requires n < blob[0]
    ensures var fives := seq(blob[0], _ => 5); var pkt := BlobPacket(blob, n);
      Stream(blob, fives, n + 1) == Stream(blob, fives, n) + [pkt, pkt, pkt, pkt, pkt]
  {
    hide BlobPacket;
    FiveCopies(BlobPacket(blob, n));
  }

  lemma FiveMore(before: seq<Packet>, pkt: Packet, file: seq<Byte>, n: nat)
    requires FiveOfEach(before, file, n) && CarriesFile(pkt, file, n)
    ensures FiveOfEach(before + [pkt, pkt, pkt, pkt, pkt], file, n + 1)
  {
    hide CarriesFile;
    assert forall p :: 5 * n <= p < 5 * n + 5 ==> p / 5 == n;
  }

  lemma FiveCopies<T>(x: T)
    ensures Copies(x, 5) == [x, x, x, x, x]
  {
    assert Copies(x, 0) == [] && Copies(x, 1) == [x] && Copies(x, 2) == [x, x];
    assert Copies(x, 3) == [x, x, x] && Copies(x, 4) == [x, x, x, x];
  }

  /** The round trip in bytes: in shared memory and on the page, byte `k` of slot `j` is byte 1 + 36 j + k of the file;
      every word after the last matrix is zero; the page says "SWRM" and the count. */
  lemma RoundTripBytes(n: NetState, blob: Blob, heard: seq<Packet>)
    requires IsSubsequence(heard, Stream(blob, seq(blob[0], _ => 5), blob[0]))
    requires forall i: nat :: i < blob[0] ==> BlobPacket(blob, i) in heard
    ensures var m := HearAll(n, heard);
      && m.sharedCount == m.page[3] == blob[0] && m.page[0] == 0x5753_524D
      && (forall w :: 0 <= w < 144 ==> m.page[4 + w] == m.shared[w])
      && (forall j, k :: 0 <= j < blob[0] && 0 <= k < 36 ==>
            LittleEndianByte(m.shared[9 * j + k / 4], k % 4) == blob[1 + 36 * j + k])
      && forall w :: 9 * blob[0] <= w < 144 ==> m.shared[w] == 0
  {
    CalibrationRoundTrip(n, blob, heard);
    BlobMemoryIsTheFile(blob);
    var m := HearAll(n, heard);
    PageWords(m.config);
    hide HearAll, Stream, IsSubsequence, BlobPacket, BlobMemory, LittleEndianByte, CommittedPage;
  }

  /** Where the structure's words are on the page. */
  lemma PageWords(c: Config)
    ensures var page := CommittedPage(c);
      && page[0] == c.magic && page[1] == c.hasNetId && page[2] == c.netId && page[3] == c.count
      && forall w :: 0 <= w < 144 ==> page[4 + w] == c.matrices[w]
  {
  }

  lemma BlobMemoryIsTheFile(blob: Blob)
    ensures forall j, k :: 0 <= j < blob[0] && 0 <= k < 36 ==>
      LittleEndianByte(BlobMemory(blob)[9 * j + k / 4], k % 4) == blob[1 + 36 * j + k]
    ensures forall w :: 9 * blob[0] <= w < 144 ==> BlobMemory(blob)[w] == 0
  {
    hide BlobMatrix, LittleEndianByte;
    forall j, k | 0 <= j < blob[0] && 0 <= k < 36
      ensures LittleEndianByte(BlobMemory(blob)[9 * j + k / 4], k % 4) == blob[1 + 36 * j + k]
    {
      MatrixBytes(blob, j, k);
      SlotAndEntry(j, k / 4);
    }
  }

  // ----- what the gates let through

  /** A packet with a count outside 1..16 or an index not below it changes nothing; any other is
      gathered under its count. */
  lemma OnlyWellFormedPacketsCount(n: NetState, pkt: Packet)
    ensures if 1 <= pkt.count <= 16 && pkt.index < pkt.count then Hear(n, pkt).config.count == pkt.count
      else Hear(n, pkt) == n
  {
    if Commits(pkt) {
      CommitOutcome(n, pkt);
      GatherAfterStamp(n.config, pkt);
    }
  }

  /** After a reset the page's words decide: a stamped page with a count from 1 to 16 is used, any other leaves shared
      memory empty; and a stamped page whose second word is 1 gives the network, by the low half of its third word. */
  lemma PageDecides(n: NetState)
    ensures var m := Restart(n); var page := n.page;
      && (if page[0] == 0x5753_524D && 1 <= page[3] <= 16
          then m.sharedCount == page[3]
               && forall w :: 0 <= w < 144 ==> m.shared[w] == if w < 9 * page[3] then page[4 + w] else 0
          else m.sharedCount == 0 && forall w :: 0 <= w < 144 ==> m.shared[w] == 0)
      && m.netIdInUse == if page[0] == 0x5753_524D && page[1] == 1 then page[2] % 0x1_0000 else 0xA000
  {
  }

  /** Flash words only lose bits. */
  lemma {:induction false} AndOnlyClears(x: nat, y: nat)
    ensures BitAnd(x, y) <= x && BitAnd(x, y) <= y
  {
    if x > 0 && y > 0 {
      AndOnlyClears(x / 2, y / 2);
    }
  }
}

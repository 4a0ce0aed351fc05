/** The host's update loops, run against the network: the RX thread and the radio may act between
    any two statements. */
module Controller {
  import opened Airtime
  import opened Basics
  import opened Firmware
  import opened HostLog
  import opened HostState
  import opened Network
  import opened OtaDevice

  class Controller {
    const sha: DigestFunction
    const settingsDevices: seq<Addr>
    const otaMaxRetries: nat
    const otaTimeout: nat           // in milliseconds, as is the clock

    var readyDevices: seq<Addr>
    var chunks: seq<DataChunk>
    var startAddrs: seq<Addr>       // start_ota_data.addrs
    var startRetries: nat           // start_ota_data.retries
    var transferData: TransferData

    var world: World                // the network the controller talks to
    var clock: nat
    ghost var sent: seq<Transmission>  // all frames handed to the radio
    ghost var log: seq<Record>      // since transferData was last built

    constructor (sha: DigestFunction, settingsDevices: seq<Addr>, otaMaxRetries: nat, otaTimeout: nat, world: World)
      ensures this.world == world && this.sha == sha && transferData == map[] && log == []
    {
      this.sha, this.settingsDevices, this.otaMaxRetries, this.otaTimeout := sha, settingsDevices, otaMaxRetries,
        otaTimeout;
      this.world, readyDevices, chunks, startAddrs, startRetries := world, [], [], [], 0;
      transferData, clock, sent, log := map[], 0, [], [];
    }

    ghost function Now(): View
      reads this
    {
      View(world, startAddrs, transferData, log, clock)
    }

    ghost predicate Inv(fw: Image)
      reads this
    {
      ViewInv(Now(), fw, sha)
    }

    // ----- the RX thread

    method OnFrameReceived(source: Addr, ack: Ack)
      modifies this`startAddrs, this`transferData, this`log
      ensures startAddrs == old(startAddrs) + if ack.StartAck? && source !in old(startAddrs) then [source] else []
      ensures ack.StartAck? ==> transferData == old(transferData) && log == old(log)
      ensures ack.ChunkAck? ==> transferData == WithAck(old(transferData), source, ack.index)
      ensures ack.ChunkAck? ==> log == old(log) + [AckHeard(source, ack.index)]
    {
      match ack
      case StartAck =>
        if source !in startAddrs {
          startAddrs := startAddrs + [source];
        }
      case ChunkAck(index) =>
        log := log + [AckHeard(source, index)];
        if source !in transferData || index >= |transferData[source].chunks| {
          return;
        }
        var status := transferData[source];
        if !status.chunks[index].acked {
          transferData := transferData[source :=
            status.(chunks := status.chunks[index := status.chunks[index].(acked := true)])];
        } else {
          assert status.chunks[index := status.chunks[index].(acked := true)] == status.chunks;
        }
    }

    /** An acknowledgement on the air reaches the host. */
    method ReceiveAck(source: Addr, ack: Ack, ghost fw: Image)
      requires Inv(fw) && source in world
      requires match ack case StartAck => world[source].started case ChunkAck(i) => i in world[source].acked
      modifies this`startAddrs, this`transferData, this`log
      ensures Inv(fw) && Meanwhile(old(Now()), Now())
    {
      hide WorldInv, LinkInv, AcksIn;
      if ack.ChunkAck? {
        WithAckKeeps(transferData, source, ack.index, AcksIn(log));
        LogNext(log, AckHeard(source, ack.index));
        ContinuesNext(log, AckHeard(source, ack.index));
      }
      OnFrameReceived(source, ack);
    }

    /** Anything the radio and the RX thread may do while the main thread is between two statements. */
    method Interleave(ghost fw: Image)
      requires Inv(fw)
      modifies this`world, this`startAddrs, this`transferData, this`log, this`clock
      ensures Inv(fw) && Meanwhile(old(Now()), Now())
      ensures WorldOnlyStarts(old(world)) ==> WorldOnlyStarts(world)
    {
      var events: nat, elapsed: nat := *, *;
      clock := clock + elapsed;
      while events > 0
        invariant Inv(fw) && Meanwhile(old(Now()), Now())
        invariant WorldOnlyStarts(old(world)) ==> WorldOnlyStarts(world)
      {
        ghost var before := Now();
        Happen(fw);
        MeanwhileTransitive(old(Now()), before, Now());
        events := events - 1;
      }
    }

    /** One event: a step of the network, or an acknowledgement coming in. */
    method Happen(ghost fw: Image)
      requires Inv(fw)
      modifies this`world, this`startAddrs, this`transferData, this`log
      ensures Inv(fw) && Meanwhile(old(Now()), Now())
      ensures WorldOnlyStarts(old(world)) ==> WorldOnlyStarts(world)
    {
      hide Later, RetriesKept, OnlyAcksAdded, Meanwhile;
      MeanwhileReflexive(Now());
      var a: Addr := *;
      if * {
        var ev: LinkEvent := *;
        NetworkEvent(a, ev, fw);
      } else if a in world {
        var ack: Ack := *;
        if (match ack case StartAck => world[a].started case ChunkAck(i) => i in world[a].acked) {
          ReceiveAck(a, ack, fw);
        }
      }
    }

    method NetworkEvent(a: Addr, ev: LinkEvent, ghost fw: Image)
      requires Inv(fw)
      modifies this`world
      ensures Inv(fw) && Meanwhile(old(Now()), Now()) && world == NetStep(old(world), a, ev, sha)
      ensures WorldOnlyStarts(old(world)) ==> WorldOnlyStarts(world)
    {
      assert forall b :: b in world ==> LinkInv(world[b], fw, sha);
      NetStepKeeps(world, a, ev, fw, sha);
      NetworkMoves(Now(), a, ev, fw, sha);
      hide WorldInv, LinkStep, ViewInv, Meanwhile, WorldOnlyStarts, LinkInv;
      world := NetStep(world, a, ev, sha);
    }

    method Sleep(ghost fw: Image)
      requires Inv(fw)
      modifies this`world, this`startAddrs, this`transferData, this`log, this`clock
      ensures Inv(fw) && Meanwhile(old(Now()), Now()) && old(clock) < clock
      ensures WorldOnlyStarts(old(world)) ==> WorldOnlyStarts(world)
    {
      clock := clock + 1;
      Interleave(fw);
    }

    /** How many of the acknowledgements that matter to a frame have come in. */
    ghost function Heard(req: Request): nat
      reads this
    {
      if req.OtaStart? then |startAddrs| else |log|
    }

    /** A frame handed to the radio. */
    method SendPayload(destination: Addr, req: Request, ghost tested: nat, ghost fw: Image)
      requires Inv(fw) && HostFrame(req, fw, sha) && (req.OtaChunk? || WorldOnlyStarts(world))
      modifies this`world, this`log, this`sent
      ensures Inv(fw) && Later(old(Now()), Now()) && world == Send(old(world), destination, req)
      ensures sent == old(sent) + [Transmission(destination, clock, tested, old(Heard(req)))]
      ensures log == old(log) + if req.OtaChunk? then [FrameSent(destination, req.index)] else []
      ensures req.OtaStart? ==> WorldOnlyStarts(world)
    {
      RadioSends(Now(), destination, req, fw, sha);
      hide ViewInv, Later, Send, HostFrame, WorldOnlyStarts;
      world := Send(world, destination, req);
      sent := sent + [Transmission(destination, clock, tested, Heard(req))];
      log := log + if req.OtaChunk? then [FrameSent(destination, req.index)] else [];
    }

    /** A transmission as the other threads see it. */
    method Transmit(destination: Addr, req: Request, ghost tested: nat, ghost fw: Image)
      requires Inv(fw) && HostFrame(req, fw, sha) && (req.OtaChunk? || WorldOnlyStarts(world))
      modifies this`world, this`startAddrs, this`transferData, this`log, this`clock, this`sent
      ensures Inv(fw) && Later(old(Now()), Now()) && RetriesKept(old(transferData), transferData)
      ensures |sent| == |old(sent)| + 1 && sent[..|old(sent)|] == old(sent)
      ensures var t := sent[|old(sent)|];
        t.destination == destination && t.tested == tested
        && old(clock) <= t.at <= clock && old(Heard(req)) <= t.handed <= Heard(req)
      ensures FramesIn(log) == FramesIn(old(log)) + if req.OtaChunk? then [(destination, req.index as nat)] else []
      ensures req.OtaChunk? && NoVerdict(old(log)) ==> NoVerdict(log)
      ensures req.OtaStart? ==> WorldOnlyStarts(world)
    {
      hide ViewInv, Later, RetriesKept, FramesIn, AcksIn;
      Interleave(fw);
      ghost var before, was := Now(), transferData;
      AcksAddNothingElse(old(log), log, 0);
      LaterHears(old(Now()), Now());
      SendPayload(destination, req, tested, fw);
      ghost var after := Now();
      if req.OtaChunk? {
        LogNext(before.log, FrameSent(destination, req.index));
      } else {
        assert after.log == before.log;
      }
      LaterTransitive(old(Now()), before, after);
      Interleave(fw);
      LaterHears(after, Now());
      AcksAddNothingElse(after.log, log, 0);
      LaterTransitive(old(Now()), after, Now());
      RetriesKeptTransitive(old(transferData), was, transferData);
    }

    // ----- START phase

    /** START frames to one address until it is acknowledged or the retries, shared by all
        addresses of the session, are used up. */
    method SendStartOta(addr: Addr, devices: seq<Addr>, fw: Image)
      requires Inv(fw) && WorldOnlyStarts(world) && chunks == Chunks(fw, sha) && startRetries <= otaMaxRetries + 1
      modifies this`world, this`startAddrs, this`startRetries, this`transferData, this`log, this`clock, this`sent
      ensures Inv(fw) && Later(old(Now()), Now()) && WorldOnlyStarts(world)
      ensures old(startRetries) <= startRetries <= otaMaxRetries + 1
      ensures |sent| - |old(sent)| == startRetries - old(startRetries)
      ensures StartAcknowledged(startAddrs, addr, devices) || startRetries == otaMaxRetries + 1
      ensures Burst(old(sent), sent, addr, otaTimeout, |old(startAddrs)|)
      ensures StartsNeeded(sent, |old(sent)|, startAddrs, addr, devices)
      ensures HandedBy(|old(sent)|, |startAddrs|)
    {
      hide ViewInv, Later, RetriesKept, WorldOnlyStarts, Chunks, Burst, StartsNeeded, StartAcknowledged, OnlyAcksAdded;
      var payload := StartPayload(fw);
      var sendTime, send := clock, true;
      ghost var was, begin := sent, |startAddrs|;
      LaterReflexive(Now());
      NoBurst(sent, addr, otaTimeout, begin);
      NoneNeeded(sent, startAddrs, addr, devices);
      while !StartAcknowledged(startAddrs, addr, devices) && startRetries <= otaMaxRetries
        invariant Inv(fw) && Later(old(Now()), Now()) && WorldOnlyStarts(world)
        invariant old(startRetries) <= startRetries <= otaMaxRetries + 1
        invariant |sent| - |was| == startRetries - old(startRetries) && begin <= |startAddrs|
        invariant Burst(was, sent, addr, otaTimeout, begin) && StartsNeeded(sent, |was|, startAddrs, addr, devices)
        invariant Paced(was, sendTime, send, |startAddrs|)
        invariant !send ==> clock - sendTime <= otaTimeout
        decreases otaMaxRetries + 1 - startRetries, if send then 0 else otaTimeout + 1 - (clock - sendTime)
      {
        ghost var before, sentBefore := Now(), sent;
        if send {
          Transmit(addr, payload, |startAddrs|, fw);
          BurstNext(was, sentBefore, sent, addr, otaTimeout, begin);
          sendTime := clock;
          startRetries := startRetries + 1;
        } else {
          LaterReflexive(before);
        }
        LaterTransitive(old(Now()), before, Now());
        LaterHears(before, Now());
        StartsNeededNext(sentBefore, sent, |was|, before.addrs, startAddrs, addr, devices);
        ghost var between := Now();
        Sleep(fw);
        LaterTransitive(old(Now()), between, Now());
        LaterHears(between, Now());
        StartsNeededNext(sent, sent, |was|, between.addrs, startAddrs, addr, devices);
        send := clock - sendTime > otaTimeout;
      }
    }

    /** The last frame sent since `was` went out by `sendTime`, on no more than `heard` acknowledgements, and when the
        next one is due its timeout has passed. */
    ghost predicate Paced(was: seq<Transmission>, sendTime: nat, send: bool, heard: nat)
      reads this
    {
      |sent| > |was| ==>
        sent[|sent| - 1].at <= sendTime && sent[|sent| - 1].handed <= heard && (send ==> clock > sendTime + otaTimeout)
    }

    /** The last frame since the first `from` went out on no more than `heard` acknowledgements. */
    ghost predicate HandedBy(from: nat, heard: nat)
      reads this
    {
      |sent| > from ==> sent[|sent| - 1].handed <= heard
    }

    method StartPayload(fw: Image) returns (payload: Request)
      requires chunks == Chunks(fw, sha)
      ensures payload.OtaStart? && HostFrame(payload, fw, sha)
    {
      payload := OtaStart(|fw|, |chunks|);
    }

    method BuildChunks(fw: Image)
      modifies this`chunks
      ensures chunks == Chunks(fw, sha)
    {
      chunks := [];
      var chunksCount := |fw| / SWRMT_OTA_CHUNK_SIZE + if |fw| % SWRMT_OTA_CHUNK_SIZE != 0 then 1 else 0;
      for chunkIdx := 0 to chunksCount
        invariant chunks == Chunks(fw, sha)[..chunkIdx]
      {
        var chunkSize := SWRMT_OTA_CHUNK_SIZE;
        if chunkIdx == chunksCount - 1 && |fw| % SWRMT_OTA_CHUNK_SIZE != 0 {
          chunkSize := |fw| % SWRMT_OTA_CHUNK_SIZE;
        }
        var start := chunkIdx * SWRMT_OTA_CHUNK_SIZE;
        var data := fw[start..start + chunkSize];
        chunks := chunks + [DataChunk(chunkIdx, chunkSize, sha(data), data)];
        assert chunks[chunkIdx] == ChunkOf(fw, chunkIdx, sha);
      }
    }

    /** Those who are to answer a START, and the addresses the frames go to. */
    ghost function Requested(devices: seq<Addr>): seq<Addr>
      reads this
    {
      if devices == [] then readyDevices else devices
    }

    ghost function Addressed(devices: seq<Addr>): seq<Addr> {
      if devices == [] then [BROADCAST_ADDRESS] else devices
    }

    /** The START phase: cut the image, then broadcast or address each device in turn. `acked` holds everyone who had
        answered when the last frame went out, and every requested device unless the retries ran out. `acked` and
        `missed` are read one after the other, so an ack arriving in between shows in neither. */
    method StartOta(fw: Image, given: Option<seq<Addr>>) returns (acked: seq<Addr>, missed: set<Addr>)
      requires forall a :: a in world ==> SessionStart(world[a], fw)
      requires FlagsAre(transferData, AcksIn(log))
      modifies this`world, this`chunks, this`startAddrs, this`startRetries, this`transferData, this`log, this`clock,
        this`sent
      ensures Inv(fw) && WorldOnlyStarts(world) && chunks == Chunks(fw, sha) && world.Keys == old(world.Keys)
      ensures |sent| - |old(sent)| == startRetries <= otaMaxRetries + 1
      ensures NoDuplicates(acked) && AddrsBacked(world, acked)
      ensures var devices := if given.Some? then given.value else settingsDevices;
        StartReported(devices, startAddrs, acked, missed)
        && Answered(Requested(devices), acked, startRetries, otaMaxRetries)
        && InTurn(sent[|old(sent)|..], Addressed(devices))
      ensures HandedBy(|old(sent)|, |acked|)
    {
      hide ViewInv, Later, LinkInv, SessionStart, WorldOnlyStarts, Chunks, RetriesKept, OnlyAcksAdded;
      var devices := if given.Some? then given.value else settingsDevices;
      startAddrs, startRetries := [], 0;
      BuildChunks(fw);
      SessionBegins(fw);
      SendStarts(devices, fw);
      acked := startAddrs;
      ghost var before := Now();
      Interleave(fw);
      LaterParts(before, Now());
      missed := Elements(devices) - Elements(startAddrs);
      StartOutcome(before, Now(), devices, missed, fw, sha);
    }

    lemma SessionBegins(fw: Image)
      requires forall a :: a in world ==> SessionStart(world[a], fw)
      requires FlagsAre(transferData, AcksIn(log)) && startAddrs == []
      ensures Inv(fw) && WorldOnlyStarts(world)
    {
      hide LinkInv, SessionStart, OnlyStarts;
      forall a | a in world ensures LinkInv(world[a], fw, sha) && OnlyStarts(world[a]) {
        SessionStartInv(world[a], fw, sha);
      }
    }

    /** START frames to everyone, or to each requested device in turn. */
    method SendStarts(devices: seq<Addr>, fw: Image)
      requires Inv(fw) && WorldOnlyStarts(world) && chunks == Chunks(fw, sha) && startRetries == 0
      modifies this`world, this`startAddrs, this`startRetries, this`transferData, this`log, this`clock, this`sent
      ensures Inv(fw) && WorldOnlyStarts(world) && world.Keys == old(world.Keys)
      ensures |sent| - |old(sent)| == startRetries <= otaMaxRetries + 1
      ensures Answered(Requested(devices), startAddrs, startRetries, otaMaxRetries)
      ensures InTurn(sent[|old(sent)|..], Addressed(devices)) && HandedBy(|old(sent)|, |startAddrs|)
    {
      hide ViewInv, WorldOnlyStarts, Later, Chunks, RetriesKept, OnlyAcksAdded, StartAcknowledged, InTurn, Burst,
        StartsNeeded;
      ghost var begin, was := Now(), sent;
      LaterReflexive(begin);
      assert devices[..0] == [];
      NoFrames(was);
      if devices == [] {
        SendStartOta(BROADCAST_ADDRESS, readyDevices, fw);
        InTurnNext(|was|, was, sent, [], BROADCAST_ADDRESS, otaTimeout, |begin.addrs|);
        assert [] + [BROADCAST_ADDRESS] == [BROADCAST_ADDRESS];
        if startRetries <= otaMaxRetries {
          AcknowledgedIsAnswered(startAddrs, BROADCAST_ADDRESS, readyDevices);
        }
      } else {
        for k := 0 to |devices|
          invariant Inv(fw) && Later(begin, Now()) && WorldOnlyStarts(world) && chunks == Chunks(fw, sha)
          invariant |sent| - |was| == startRetries <= otaMaxRetries + 1
          invariant Answered(devices[..k], startAddrs, startRetries, otaMaxRetries)
          invariant InTurn(sent[|was|..], devices[..k]) && HandedBy(|was|, |startAddrs|)
        {
          SendNextStart(devices, k, begin, |was|, fw);
        }
        assert devices[..|devices|] == devices;
      }
      LaterParts(begin, Now());
    }

    /** START frames to the next requested device. */
    method SendNextStart(devices: seq<Addr>, k: nat, ghost begin: View, ghost first: nat, fw: Image)
      requires Inv(fw) && Later(begin, Now()) && WorldOnlyStarts(world) && chunks == Chunks(fw, sha)
      requires k < |devices| && first <= |sent| && startRetries <= otaMaxRetries + 1
      requires Answered(devices[..k], startAddrs, startRetries, otaMaxRetries) && InTurn(sent[first..], devices[..k])
      requires HandedBy(first, |startAddrs|)
      modifies this`world, this`startAddrs, this`startRetries, this`transferData, this`log, this`clock, this`sent
      ensures Inv(fw) && Later(begin, Now()) && WorldOnlyStarts(world)
      ensures |sent| - |old(sent)| == startRetries - old(startRetries) >= 0 && startRetries <= otaMaxRetries + 1
      ensures Answered(devices[..k + 1], startAddrs, startRetries, otaMaxRetries)
        && InTurn(sent[first..], devices[..k + 1])
      ensures HandedBy(first, |startAddrs|)
    {
      hide ViewInv, WorldOnlyStarts, Later, Chunks, RetriesKept, OnlyAcksAdded, StartAcknowledged, InTurn, Burst,
        StartsNeeded, Answered;
      ghost var before, retries, was := Now(), startRetries, sent;
      SendStartOta(devices[k], devices, fw);
      ghost var after := Now();
      if startRetries <= otaMaxRetries {
        AcknowledgedIsAnswered(startAddrs, devices[k], devices);
      }
      BurstKeeps(was, sent, devices[k], otaTimeout, |before.addrs|);
      InTurnNext(first, was, sent, devices[..k], devices[k], otaTimeout, |before.addrs|);
      assert devices[..k] + [devices[k]] == devices[..k + 1];
      LaterTransitive(begin, before, after);
      LaterParts(before, after);
      Sleep(fw);
      LaterTransitive(begin, after, Now());
      LaterParts(after, Now());
      assert before.addrs <= startAddrs;
      AnsweredNext(devices, k, before.addrs, startAddrs, retries, startRetries, otaMaxRetries);
    }

    // ----- transfer phase

    /** The retry count of chunk `k`, stored for every target. */
    method SetRetries(k: nat, addr: Addr, devices: seq<Addr>, count: nat, ghost fw: Image)
      requires Inv(fw) && AllChunksListed(transferData, |chunks|) && k < |chunks|
        && Targets(addr, devices) <= transferData.Keys
      modifies this`transferData
      ensures Inv(fw) && Later(old(Now()), Now())
      ensures RetriesAre(old(transferData), transferData, k, Targets(addr, devices), count)
    {
      hide WorldInv, AcksIn;
      ghost var was := transferData;
      if addr == BROADCAST_ADDRESS {
        for j := 0 to |devices|
          modifies this`transferData
          invariant RetriesAre(was, transferData, k, Elements(devices[..j]), count)
          invariant FlagsUp(was, transferData) && FlagsAre(transferData, AcksIn(log))
        {
          assert devices[j] in Targets(addr, devices);
          WithRetriesKeeps(was, transferData, devices[j], k, Elements(devices[..j]), count, AcksIn(log));
          transferData := WithRetries(transferData, devices[j], k, count);
          assert Elements(devices[..j + 1]) == Elements(devices[..j]) + {devices[j]};
        }
        assert devices[..|devices|] == devices;
      } else {
        WithRetriesKeeps(was, transferData, addr, k, {}, count, AcksIn(log));
        transferData := WithRetries(transferData, addr, k, count);
        assert {} + {addr} == {addr};
      }
    }

    /** One chunk frame and the bookkeeping that goes with it. */
    method TransmitChunk(payload: Request, k: nat, addr: Addr, devices: seq<Addr>, count: nat, ghost fw: Image)
      requires Inv(fw) && payload.OtaChunk? && payload.index == k && HostFrame(payload, fw, sha)
      requires AllChunksListed(transferData, |chunks|) && k < |chunks| && Targets(addr, devices) <= transferData.Keys
      modifies this`world, this`startAddrs, this`transferData, this`log, this`clock, this`sent
      ensures Inv(fw) && Later(old(Now()), Now())
      ensures |sent| == |old(sent)| + 1 && sent[..|old(sent)|] == old(sent)
      ensures var t := sent[|old(sent)|];
        t.destination == addr && t.tested == |old(log)|
        && old(clock) <= t.at <= clock && |old(log)| <= t.handed <= |log|
      ensures RetriesAre(old(transferData), transferData, k, Targets(addr, devices), count)
      ensures FramesIn(log) == FramesIn(old(log)) + [(addr, k)] && (NoVerdict(old(log)) ==> NoVerdict(log))
    {
      hide ViewInv, Later, RetriesAre, RetriesKept, Targets, FramesIn, NoVerdict;
      Transmit(addr, payload, |log|, fw);
      ghost var after, was := Now(), transferData;
      LaterKeepsShape(old(Now()), after, |chunks|);
      SetRetries(k, addr, devices, count, fw);
      LaterTransitive(old(Now()), after, Now());
      RetriesKeptThen(old(transferData), was, transferData, k, Targets(addr, devices), count);
    }

    /** Chunk frames to one address, or to all, until acknowledged or out of retries. */
    method SendChunk(k: nat, addr: Addr, devices: seq<Addr>, ghost fw: Image)
      requires Inv(fw) && chunks == Chunks(fw, sha) && k < |chunks| && AllChunksListed(transferData, |chunks|)
      requires transferData.Keys == Elements(devices) && (addr == BROADCAST_ADDRESS || addr in devices)
      modifies this`world, this`startAddrs, this`transferData, this`log, this`clock, this`sent
      ensures Inv(fw) && Later(old(Now()), Now()) && AllChunksListed(transferData, |chunks|)
      ensures 0 <= |sent| - |old(sent)| <= otaMaxRetries + 1
      ensures ChunkAcknowledged(transferData, k, addr, devices) || |sent| - |old(sent)| == otaMaxRetries + 1
      ensures if |sent| == |old(sent)| then RetriesKept(old(transferData), transferData)
        else RetriesAre(old(transferData), transferData, k, Targets(addr, devices), |sent| - |old(sent)| - 1)
      ensures FramesAdded(FramesIn(old(log)), FramesIn(log), addr, k, |sent| - |old(sent)|)
      ensures NoVerdict(old(log)) ==> NoVerdict(log)
      ensures Burst(old(sent), sent, addr, otaTimeout, |old(log)|)
      ensures ChunksNeeded(sent, |old(sent)|, log, k, addr, devices)
    {
      hide ViewInv, Later, RetriesAre, RetriesKept, Targets, Chunks, ChunkAcknowledged, FramesIn, FramesAdded,
        NoVerdict, OnlyAcksAdded, Burst, ChunksNeeded, Chasing;
      var payload := ChunkPayload(k, fw);
      var sendTime, send, retriesCount := clock, true, 0;
      ghost var begin, was := Now(), sent;
      ChasingBegins(k, addr, devices, fw);
      while !ChunkAcknowledged(transferData, k, addr, devices) && retriesCount <= otaMaxRetries
        invariant Chasing(begin, was, k, addr, devices, retriesCount, fw) && k < |chunks|
        invariant AllChunksListed(transferData, |chunks|) && retriesCount <= otaMaxRetries + 1
        invariant Paced(was, sendTime, send, |log|)
        invariant (retriesCount == 0 ==> send) && (!send ==> clock - sendTime <= otaTimeout)
        decreases otaMaxRetries + 1 - retriesCount, if send then 0 else otaTimeout + 1 - (clock - sendTime)
      {
        if send {
          ChaseOnce(payload, k, addr, devices, retriesCount, begin, was, sendTime, fw);
          sendTime := clock;
          retriesCount := retriesCount + 1;
        }
        Wait(k, addr, devices, retriesCount, begin, was, fw);
        send := clock - sendTime > otaTimeout;
      }
      ChasingEnds(begin, was, k, addr, devices, retriesCount, fw);
    }

    /** What holds while chunk `k` is chased, after `count` frames. */
    ghost predicate Chasing(begin: View, was: seq<Transmission>, k: nat, addr: Addr, devices: seq<Addr>, count: nat,
                            fw: Image)
      reads this
    {
      && Inv(fw) && Later(begin, Now()) && chunks == Chunks(fw, sha) && AllChunksListed(transferData, |chunks|)
      && transferData.Keys == Elements(devices) && |sent| == |was| + count
      && RetriesSoFar(begin.td, transferData, k, Targets(addr, devices), count)
      && FramesAdded(FramesIn(begin.log), FramesIn(log), addr, k, count) && (NoVerdict(begin.log) ==> NoVerdict(log))
      && Burst(was, sent, addr, otaTimeout, |begin.log|) && ChunksNeeded(sent, |was|, log, k, addr, devices)
    }

    lemma ChasingBegins(k: nat, addr: Addr, devices: seq<Addr>, fw: Image)
      requires Inv(fw) && chunks == Chunks(fw, sha) && AllChunksListed(transferData, |chunks|)
      requires transferData.Keys == Elements(devices)
      ensures Chasing(Now(), sent, k, addr, devices, 0, fw)
    {
      hide ViewInv, Chunks, FramesIn, Targets;
      LaterReflexive(Now());
      NoBurst(sent, addr, otaTimeout, |log|);
      NoChunkNeeded(sent, log, k, addr, devices);
      RetriesKeptReflexive(transferData);
    }

    lemma ChasingEnds(begin: View, was: seq<Transmission>, k: nat, addr: Addr, devices: seq<Addr>, count: nat,
                      fw: Image)
      requires Chasing(begin, was, k, addr, devices, count, fw)
      ensures Inv(fw) && Later(begin, Now()) && AllChunksListed(transferData, |chunks|) && |sent| == |was| + count
      ensures RetriesSoFar(begin.td, transferData, k, Targets(addr, devices), count)
      ensures FramesAdded(FramesIn(begin.log), FramesIn(log), addr, k, count)
        && (NoVerdict(begin.log) ==> NoVerdict(log))
      ensures Burst(was, sent, addr, otaTimeout, |begin.log|) && ChunksNeeded(sent, |was|, log, k, addr, devices)
    {
    }

    /** One more frame, its chunk being unacknowledged and its time having come. */
    method ChaseOnce(payload: Request, k: nat, addr: Addr, devices: seq<Addr>, count: nat,
                     ghost begin: View, ghost was: seq<Transmission>, ghost sendTime: nat, ghost fw: Image)
      requires Chasing(begin, was, k, addr, devices, count, fw) && Paced(was, sendTime, true, |log|)
      requires payload.OtaChunk? && payload.index == k && HostFrame(payload, fw, sha) && k < |chunks|
      requires addr == BROADCAST_ADDRESS || addr in devices
      requires !ChunkAcknowledged(transferData, k, addr, devices)
      modifies this`world, this`startAddrs, this`transferData, this`log, this`clock, this`sent
      ensures Chasing(begin, was, k, addr, devices, count + 1, fw) && Paced(was, clock, false, |log|)
      ensures AllChunksListed(transferData, |chunks|)
    {
      hide ViewInv, Later, RetriesAre, RetriesKept, RetriesSoFar, Targets, Chunks, ChunkAcknowledged, FramesIn,
        NoVerdict, FramesAdded, Burst, ChunksNeeded, HeardFrom, HostFrame;
      ghost var before, sentBefore := Now(), sent;
      LaterHears(begin, before);
      TestIsExact(k, addr, devices, fw);
      TargetsListed(addr, devices, transferData);
      TransmitChunk(payload, k, addr, devices, count, fw);
      BurstNext(was, sentBefore, sent, addr, otaTimeout, |begin.log|);
      RetriesReplaced(begin.td, before.td, transferData, k, Targets(addr, devices), count);
      AddedThenOne(FramesIn(begin.log), FramesIn(before.log), addr, k, count);
      LaterTransitive(begin, before, Now());
      LaterKeepsShape(before, Now(), |chunks|);
      LaterHears(before, Now());
      ChunksNeededNext(sentBefore, sent, |was|, before.log, log, k, addr, devices);
    }

    /** Waiting between two looks. */
    method Wait(k: nat, addr: Addr, devices: seq<Addr>, ghost count: nat, ghost begin: View,
                ghost was: seq<Transmission>,
                ghost fw: Image)
      requires Chasing(begin, was, k, addr, devices, count, fw)
      modifies this`world, this`startAddrs, this`transferData, this`log, this`clock
      ensures Chasing(begin, was, k, addr, devices, count, fw) && old(clock) < clock && |old(log)| <= |log|
      ensures AllChunksListed(transferData, |chunks|)
    {
      hide ViewInv, Later, RetriesAre, RetriesKept, RetriesSoFar, Targets, Chunks, FramesIn, NoVerdict,
        FramesAdded, Burst,
        ChunksNeeded, HeardFrom, OnlyAcksAdded;
      ghost var before := Now();
      Sleep(fw);
      LaterTransitive(begin, before, Now());
      LaterKeepsShape(before, Now(), |chunks|);
      LaterHears(before, Now());
      ChunksNeededNext(sent, sent, |was|, before.log, log, k, addr, devices);
      RetriesSoFarStay(begin.td, before.td, transferData, k, Targets(addr, devices), count);
      AcksAddNothingElse(before.log, log, 0);
    }

    lemma TestIsExact(k: nat, addr: Addr, devices: seq<Addr>, fw: Image)
      requires Inv(fw) && AllChunksListed(transferData, |chunks|) && k < |chunks|
      requires transferData.Keys == Elements(devices) && (addr == BROADCAST_ADDRESS || addr in devices)
      ensures ChunkAcknowledged(transferData, k, addr, devices) <==> HeardFrom(log, k, addr, devices)
    {
      ChunkTestExact(transferData, log, k, addr, devices);
    }

    method ChunkPayload(k: nat, ghost fw: Image) returns (payload: Request)
      requires chunks == Chunks(fw, sha) && k < |chunks|
      ensures payload.OtaChunk? && payload.index == k && HostFrame(payload, fw, sha)
    {
      var chunk := chunks[k];
      assert chunk == ChunkOf(fw, k, sha);
      payload := OtaChunk(chunk.index, chunk.data, chunk.sha);
    }

    /** Fresh flags for every device and a fresh log; no chunk has been sent yet, so no ack is missed meanwhile. */
    method PrepareTransfer(devices: seq<Addr>, ghost fw: Image)
      requires Inv(fw) && WorldOnlyStarts(world)
      modifies this`world, this`startAddrs, this`transferData, this`log, this`clock
      ensures Inv(fw) && WorldGrows(old(world), world) && log == [] && HeardBacked(world, AcksIn(log))
      ensures transferData.Keys == Elements(devices) && AllChunksListed(transferData, |chunks|)
        && RetriesBounded(transferData, 0)
    {
      hide WorldInv, WorldOnlyStarts, AddrsBacked, WorldGrows, RetriesBounded;
      transferData, log := map[], [];
      WorldGrowsReflexive(world);
      BoundsOfNone(0);
      for j := 0 to |devices|
        invariant Inv(fw) && WorldOnlyStarts(world) && WorldGrows(old(world), world) && log == []
        invariant transferData.Keys == Elements(devices[..j])
        invariant AllChunksListed(transferData, |chunks|) && RetriesBounded(transferData, 0)
      {
        ghost var before := Now();
        PrepareDevice(devices[j], fw);
        WorldGrowsTransitive(old(world), before.world, world);
        assert Elements(devices[..j + 1]) == Elements(devices[..j]) + {devices[j]};
      }
      assert devices[..|devices|] == devices;
    }

    method PrepareDevice(a: Addr, ghost fw: Image)
      requires Inv(fw) && WorldOnlyStarts(world) && log == []
      requires AllChunksListed(transferData, |chunks|) && RetriesBounded(transferData, 0)
      modifies this`world, this`startAddrs, this`transferData, this`log, this`clock
      ensures Inv(fw) && WorldOnlyStarts(world) && WorldGrows(old(world), world) && log == []
      ensures transferData.Keys == old(transferData.Keys) + {a}
      ensures AllChunksListed(transferData, |chunks|) && RetriesBounded(transferData, 0)
    {
      hide WorldInv, WorldOnlyStarts, AddrsBacked, WorldGrows, LinkGrows;
      transferData := transferData[a := FreshStatus(|chunks|)];
      ghost var before := Now();
      Interleave(fw);
      NothingHeard(world, log);
      RetriesStayBounded(before.td, transferData, 0, {}, 0, 0);
    }

    /** What holds between two chunks, or two devices, of the transfer to `devices`: frames only up to chunk `k`. */
    ghost predicate Sending(begin: View, devices: seq<Addr>, k: nat, fw: Image)
      reads this
    {
      && Inv(fw) && Later(begin, Now()) && chunks == Chunks(fw, sha) && RetriesBounded(transferData, otaMaxRetries)
      && transferData.Keys == Elements(devices) && AllChunksListed(transferData, |chunks|)
      && NoVerdict(log) && FramesInOrder(FramesIn(log), k, settingsDevices == [], devices)
    }

    /** All chunks in order, by broadcast or to each device in turn, each until it is chased everywhere. */
    method SendChunks(devices: seq<Addr>, ghost fw: Image)
      requires Sending(Now(), devices, 0, fw)
      modifies this`world, this`startAddrs, this`transferData, this`log, this`clock, this`sent
      ensures Sending(old(Now()), devices, |chunks|, fw)
      ensures ChasedAll(transferData, log, Elements(devices), 0, |chunks|, otaMaxRetries)
    {
      hide ViewInv, Later, RetriesBounded, Chunks, FramesIn, NoVerdict, FramesInOrder, ChasedAll;
      ghost var begin, all := Now(), Elements(devices);
      NoneChased(transferData, log, all, 0, otaMaxRetries);
      for k := 0 to |chunks|
        invariant Sending(begin, devices, k, fw)
        invariant ChasedAll(transferData, log, all, 0, k, otaMaxRetries)
      {
        ghost var before := Now();
        LaterReflexive(before);
        MoreFramesAllowed(FramesIn(log), k, settingsDevices == [], devices);
        if settingsDevices == [] {
          SendOneChunk(k, BROADCAST_ADDRESS, devices, begin, fw);
        } else {
          NoneChased(transferData, log, {}, k, otaMaxRetries);
          assert Elements(devices[..0]) == {};
          for j := 0 to |devices|
            invariant Sending(begin, devices, k + 1, fw) && Later(before, Now())
            invariant ChasedAll(transferData, log, Elements(devices[..j]), k, k + 1, otaMaxRetries)
          {
            ghost var between := Now();
            SendOneChunk(k, devices[j], devices, begin, fw);
            LaterTransitive(before, between, Now());
            ChasedStays(between, Now(), Elements(devices[..j]), k, k + 1, otaMaxRetries);
            assert Elements(devices[..j + 1]) == Elements(devices[..j]) + {devices[j]};
            ChasedAmong(transferData, log, Targets(devices[j], devices), devices[j], k, k + 1, otaMaxRetries);
            ChasedBoth(transferData, log, Elements(devices[..j]), {devices[j]}, k, otaMaxRetries);
          }
          assert devices[..|devices|] == devices;
        }
        ChasedStays(before, Now(), all, 0, k, otaMaxRetries);
        ChasedNext(transferData, log, all, k, otaMaxRetries);
      }
    }

    /** `SendChunk`, seen from the start of the transfer. */
    method SendOneChunk(k: nat, addr: Addr, devices: seq<Addr>, ghost begin: View, ghost fw: Image)
      requires Sending(begin, devices, k + 1, fw) && k < |chunks|
      requires if settingsDevices == [] then addr == BROADCAST_ADDRESS else addr in devices
      modifies this`world, this`startAddrs, this`transferData, this`log, this`clock, this`sent
      ensures Sending(begin, devices, k + 1, fw) && Later(old(Now()), Now())
      ensures ChasedAll(transferData, log, Targets(addr, devices), k, k + 1, otaMaxRetries)
    {
      hide ViewInv, Later, RetriesAre, RetriesBounded, Chunks, ChunkAcknowledged, FramesIn, NoVerdict, FramesInOrder,
        ChasedAll, FramesAdded, Burst, ChunksNeeded;
      ghost var before := Now();
      TargetsListed(addr, devices, transferData);
      SendChunk(k, addr, devices, fw);
      ghost var more := |sent| - |old(sent)|;
      LaterTransitive(begin, before, Now());
      LaterKeepsShape(before, Now(), |chunks|);
      AddedInOrder(FramesIn(before.log), FramesIn(log), addr, k, more, settingsDevices == [], devices);
      TargetsChased(transferData, before.log, log, k, addr, devices, more, otaMaxRetries);
      if more == 0 {
        RetriesStayBounded(before.td, transferData, 0, {}, 0, otaMaxRetries);
      } else {
        RetriesStayBounded(before.td, transferData, k, Targets(addr, devices), more - 1, otaMaxRetries);
      }
    }

    /** The verdicts, one device after the other while acks may still come in. */
    method Judge(devices: seq<Addr>, ghost fw: Image)
      requires Inv(fw) && HeardBacked(world, AcksIn(log)) && NoVerdict(log)
      requires Judging(transferData, log, Elements(devices), {}, |chunks|, otaMaxRetries)
      modifies this`world, this`startAddrs, this`transferData, this`log, this`clock
      ensures Inv(fw) && HeardBacked(world, AcksIn(log)) && WorldGrows(old(world), world) && Continues(old(log), log)
      ensures Judging(transferData, log, Elements(devices), Elements(devices), |chunks|, otaMaxRetries)
      ensures FramesIn(log) == FramesIn(old(log))
    {
      hide ViewInv, WorldGrows, HeardBacked, Continues, FramesIn, Judging;
      WorldGrowsReflexive(world);
      ghost var begin := log;
      LogReflexive(log);
      assert Elements(devices[..0]) == {};
      for j := 0 to |devices|
        invariant Inv(fw) && HeardBacked(world, AcksIn(log)) && WorldGrows(old(world), world) && Continues(begin, log)
        invariant Judging(transferData, log, Elements(devices), Elements(devices[..j]), |chunks|, otaMaxRetries)
        invariant FramesIn(log) == FramesIn(begin)
      {
        ghost var before := Now();
        assert devices[j] in Elements(devices);
        JudgeNext(devices[j], Elements(devices), Elements(devices[..j]), fw);
        WorldGrowsTransitive(old(world), before.world, world);
        ContinuesTransitive(begin, before.log, log);
        assert Elements(devices[..j + 1]) == Elements(devices[..j]) + {devices[j]};
      }
      assert devices[..|devices|] == devices;
    }

    /** The verdict on one device. */
    method JudgeNext(a: Addr, ghost devices: set<Addr>, ghost judged: set<Addr>, ghost fw: Image)
      requires Inv(fw) && HeardBacked(world, AcksIn(log)) && a in devices
      requires Judging(transferData, log, devices, judged, |chunks|, otaMaxRetries)
      modifies this`world, this`startAddrs, this`transferData, this`log, this`clock
      ensures Inv(fw) && HeardBacked(world, AcksIn(log)) && WorldGrows(old(world), world) && Continues(old(log), log)
      ensures Judging(transferData, log, devices, judged + {a}, |chunks|, otaMaxRetries)
      ensures FramesIn(log) == FramesIn(old(log))
    {
      hide WorldInv, AddrsBacked, WorldGrows, FlagsAre, HeardBacked, Continues, FramesIn, AcksIn, OnlyAcksAdded,
        FlagsUp, RetriesAre, RetriesBounded, VerdictsFit, ChasedAll, AllReported;
      ghost var before := Now();
      Interleave(fw);
      ghost var now := Now();
      LaterParts(before, now);
      LaterGrowsWorld(before, now);
      JudgingStays(before, now, devices, judged, |chunks|, otaMaxRetries);
      JudgingNext(transferData, log, devices, judged, a, |chunks|, otaMaxRetries);
      ghost var r := VerdictReached(a, AllAcked(transferData[a]));
      ContinuesTransitive(before.log, log, log + [r]);
      transferData, log := WithVerdict(transferData, a), log + [r];
    }

    /** The transfer phase. */
    method Transfer(devices: seq<Addr>, ghost fw: Image) returns (result: TransferData)
      requires Inv(fw) && WorldOnlyStarts(world) && chunks == Chunks(fw, sha)
      modifies this`world, this`startAddrs, this`transferData, this`log, this`clock, this`sent
      ensures result == transferData && result.Keys == Elements(devices) && AllChunksListed(result, ChunksCount(|fw|))
      ensures Inv(fw) && HeardBacked(world, AcksIn(log)) && WorldGrows(old(world), world)
      ensures RetriesBounded(result, otaMaxRetries)
      ensures TransferReported(result, log, devices, ChunksCount(|fw|), otaMaxRetries, settingsDevices == [])
    {
      hide ViewInv, Later, WorldGrows, RetriesBounded, AllReported, ChasedAll, VerdictsFit, HeardBacked;
      assert |Chunks(fw, sha)| == ChunksCount(|fw|);
      PrepareTransfer(devices, fw);
      ghost var prepared := Now();
      BoundsGrow(transferData, otaMaxRetries);
      LaterReflexive(prepared);
      SendChunks(devices, fw);
      ghost var sent := Now();
      LaterParts(prepared, sent);
      LaterGrowsWorld(prepared, sent);
      WorldGrowsTransitive(old(world), prepared.world, sent.world);
      NoVerdictFits(log, |chunks|);
      NoneReported(transferData, log, |chunks|, otaMaxRetries);
      Judge(devices, fw);
      WorldGrowsTransitive(old(world), sent.world, world);
      result := transferData;
    }

    /** A whole update, as the clients run it: START, then the transfer to the devices that acked it. A device reported
        as successful holds the image, whatever the radio did and whenever devices were reset. A device is reported as
        failed only if not all of its acks were heard before the first verdict, and only if some chunk was sent to it
        as often as the retries allow. */
    method Update(fw: Image, given: Option<seq<Addr>>)
      returns (acked: seq<Addr>, missed: set<Addr>, result: TransferData)
      requires forall a :: a in world ==> SessionStart(world[a], fw)
      requires FlagsAre(transferData, AcksIn(log))
      modifies this`world, this`chunks, this`startAddrs, this`startRetries, this`transferData, this`log, this`clock,
        this`sent
      ensures NoDuplicates(acked) && Elements(acked) !! missed && result.Keys == Elements(acked)
      ensures Answered(Requested(if given.Some? then given.value else settingsDevices), acked, startRetries,
        otaMaxRetries)
      ensures forall a :: a in acked && result[a].success ==> a in world && Installed(world[a], fw)
      ensures forall a :: a in acked && HeardInTime(log, a, ChunksCount(|fw|)) ==> result[a].success
      ensures forall a :: a in acked && !OutOfRetries(log, a, ChunksCount(|fw|), otaMaxRetries) ==> result[a].success
      ensures TransferReported(result, log, acked, ChunksCount(|fw|), otaMaxRetries, settingsDevices == [])
      ensures Inv(fw) && AddrsBacked(world, acked) && HeardBacked(world, AcksIn(log))
        && RetriesBounded(result, otaMaxRetries)
    {
      hide ViewInv, FlagsAre, WorldGrows, HeardBacked, TransferReported, HeardInTime, OutOfRetries, Installed,
        SessionStart, RetriesBounded;
      acked, missed := StartOta(fw, given);
      ghost var started := world;
      result := Transfer(acked, fw);
      GrowthKeepsBacking(started, world, acked, {});
      InvParts(fw);
      SuccessInstalls(world, result, acked, log, otaMaxRetries, settingsDevices == [], fw, sha);
      FailureIsExplained(result, acked, log, ChunksCount(|fw|), otaMaxRetries, settingsDevices == []);
    }

    lemma InvParts(fw: Image)
      requires Inv(fw)
      ensures WorldInv(world, fw, sha)
    {
    }
  }
}

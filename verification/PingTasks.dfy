/** The loops of the ping tasks as they update their variables (`ping/src/udp.rs`,
    `ping/src/tcp.rs`), each over a script of what its awaits yield. */
module PingTasks {
  import opened Prelude
  import opened Statistics
  import opened LogTask
  import opened EchoClient

  /** The send task: one packet a tick, numbered and stamped in the one reused payload, until the
      configured count is reached. `clock` are the readings after each tick. */
  method SendTask(identifier: nat, len: nat, count: Option<nat>, clock: seq<nat>)
    returns (packets: seq<Packet>, sendCounter: nat, finished: bool)
    ensures sendCounter == |packets| <= |clock|
    ensures forall i :: 0 <= i < |packets| ==> packets[i] == Packet(identifier, clock[i], 0, i, len)
    ensures finished <==> count.Some? && sendCounter == count.value
    ensures !finished ==> |packets| == |clock|
  {
    var payload := Packet(identifier, 0, 0, 0, len);
    packets, sendCounter := [], 0;
    while sendCounter < |clock| && (count.None? || sendCounter < count.value)
      invariant sendCounter == |packets| <= |clock| && (count.Some? ==> sendCounter <= count.value)
      invariant payload == Packet(identifier, payload.sendTs, 0, payload.seqNo, len)
      invariant forall i :: 0 <= i < |packets| ==> packets[i] == Packet(identifier, clock[i], 0, i, len)
    {
      payload := payload.(seqNo := sendCounter);
      payload := payload.(sendTs := clock[sendCounter]);
      packets := packets + [payload];
      sendCounter := sendCounter + 1;
    }
    finished := count.Some? && sendCounter >= count.value;
  }

  /** What the receive task's `read` yields; `now` is the clock just after. */
  datatype Read = Arrival(packet: Packet, now: nat) | ReadFailed

  /** Both ends of the receive task end the client: a failed read leaves the `while let` loop, and the
      client panics over a receive task that is over. */
  datatype Progress = Waiting | ReadEnded | NegativeRtt

  /** Result `i` is made of the packet that came with read `i`. */
  predicate AreResultsOf(results: seq<EchoResult>, inputs: seq<Read>) {
    && |results| == |inputs|
    && forall i :: 0 <= i < |results| ==>
         inputs[i].Arrival? && Some(results[i]) == ResultOf(inputs[i].packet, inputs[i].now)
  }

  lemma OneMoreResult(results: seq<EchoResult>, inputs: seq<Read>, r: EchoResult, input: Read)
    requires AreResultsOf(results, inputs) && input.Arrival? && Some(r) == ResultOf(input.packet, input.now)
    ensures AreResultsOf(results + [r], inputs + [input])
  {
  }

  /** The receive task over what it reads, with the bounded channel to the log task. `drains[i]` is how many
      results the log task takes, if there are as many, while input `i` is awaited; a full channel makes
      the receive task wait for the log task. No result is dropped or overtaken, and the task ends at the first
      read that fails or has a packet from the future, and at no other. */
  method ReceiveTask(inputs: seq<Read>, drains: seq<nat>)
    returns (results: seq<EchoResult>, logged: seq<EchoResult>, chan: seq<EchoResult>, progress: Progress)
    requires |drains| == |inputs|
    ensures results == logged + chan && |chan| <= CHANNEL_SIZE
    ensures |results| <= |inputs|
    ensures AreResultsOf(results, inputs[..|results|])
    ensures match progress
            case Waiting => |results| == |inputs|
            case ReadEnded => |results| < |inputs| && inputs[|results|].ReadFailed?
            case NegativeRtt =>
              && |results| < |inputs| && inputs[|results|].Arrival?
              && inputs[|results|].now < inputs[|results|].packet.sendTs
  {
    results, logged, chan, progress := [], [], [], Waiting;
    while |results| < |inputs|
      invariant |results| <= |inputs| && results == logged + chan && |chan| <= CHANNEL_SIZE
      invariant AreResultsOf(results, inputs[..|results|])
      decreases |inputs| - |results|
    {
      logged, chan := Drain(logged, chan, drains[|results|]);
      if inputs[|results|].ReadFailed? {
        progress := ReadEnded;
        return;
      }
      var packet, now := inputs[|results|].packet, inputs[|results|].now;
      if now < packet.sendTs {
        progress := NegativeRtt;
        return;
      }
      var rtt := (now - packet.sendTs) as real / 1000000.0;
      var result := EchoResult(packet.seqNo, rtt, packet.sendTs, packet.recvTs, now);
      OneMoreResult(results, inputs[..|results|], result, inputs[|results|]);
      assert inputs[..|results|] + [inputs[|results|]] == inputs[..|results| + 1];
      logged, chan := Send(logged, chan, result);
      results := results + [result];
    }
  }

  /** `log_writer.send(..).await`: a full channel makes the sender wait for the log task. */
  method Send(logged: seq<EchoResult>, chan: seq<EchoResult>, result: EchoResult)
    returns (logged': seq<EchoResult>, chan': seq<EchoResult>)
    requires |chan| <= CHANNEL_SIZE
    ensures logged' + chan' == logged + chan + [result] && |chan'| <= CHANNEL_SIZE
  {
    logged', chan' := logged, chan;
    if |chan| == CHANNEL_SIZE {
      logged', chan' := Drain(logged, chan, 1);
    }
    chan' := chan' + [result];
  }

  /** The log task takes `n` results, or all there are. */
  method Drain(logged: seq<EchoResult>, chan: seq<EchoResult>, n: nat)
    returns (logged': seq<EchoResult>, chan': seq<EchoResult>)
    ensures logged' + chan' == logged + chan
    ensures |chan'| == if n < |chan| then |chan| - n else 0
  {
    var k := if n < |chan| then n else |chan|;
    logged', chan' := logged + chan[..k], chan[k..];
    assert chan == chan[..k] + chan[k..];
  }

  /** A frame, the monotone clock when it is taken and again after it was sampled, and the
      server's wall clock. */
  datatype Frame = Frame(packet: Packet, taken: nat, after: nat, wall: nat)

  /** The whole milliseconds from each frame's second clock reading to the next frame. */
  function Samples(frames: seq<Frame>): seq<real> {
    if |frames| < 2 then []
    else
      var a, b := frames[|frames| - 2].after, frames[|frames| - 1].taken;
      Samples(frames[..|frames| - 1]) + [((if a <= b then b - a else 0) / NANOS_PER_MILLI) as real]
  }

  function Echoes(frames: seq<Frame>): seq<Packet> {
    if frames == [] then []
    else Echoes(frames[..|frames| - 1]) + [Echoed(frames[|frames| - 1].packet, frames[|frames| - 1].wall)]
  }

  /** The clock readings of the handler, in order. */
  predicate Monotone(frames: seq<Frame>) {
    && (forall i :: 0 <= i < |frames| ==> frames[i].taken <= frames[i].after)
    && (forall i, j :: 0 <= i < j < |frames| ==> frames[i].after <= frames[j].taken)
  }

  /** One by one: the time to the next frame in whole milliseconds. */
  lemma {:induction false} SamplesOneByOne(frames: seq<Frame>)
    requires Monotone(frames)
    ensures |Samples(frames)| == if frames == [] then 0 else |frames| - 1
    ensures forall i {:trigger Samples(frames)[i]} :: 0 <= i < |Samples(frames)| ==>
              Samples(frames)[i] == ((frames[i + 1].taken - frames[i].after) / 1000000) as real
  {
    if frames != [] {
      var init := frames[..|frames| - 1];
      SamplesOneByOne(init);
      forall i | 0 <= i < |Samples(frames)|
        ensures Samples(frames)[i] == ((frames[i + 1].taken - frames[i].after) / 1000000) as real
      {
        if i < |Samples(init)| {
          assert Samples(frames)[i] == Samples(init)[i];
        }
      }
    }
  }

  /** Every frame, with nothing but the server's stamp changed. */
  lemma {:induction false} EchoesOneByOne(frames: seq<Frame>)
    ensures |Echoes(frames)| == |frames|
    ensures forall i :: 0 <= i < |frames| ==> Echoes(frames)[i] == frames[i].packet.(recvTs := frames[i].wall)
  {
    if frames != [] {
      EchoesOneByOne(frames[..|frames| - 1]);
    }
  }

  /** The handler of one TCP connection: it echoes every frame with its own time stamp and samples
      the time between frames; the clock is monotone. */
  method ClientHandler(frames: seq<Frame>) returns (echoes: seq<Packet>, stats: RunningStatistics, recvCounter: nat)
    requires Monotone(frames)
    ensures recvCounter == |frames| && echoes == Echoes(frames)
    ensures stats.Valid() && stats.history == Samples(frames)
    ensures |stats.history| == if frames == [] then 0 else |frames| - 1
    ensures forall i {:trigger stats.history[i]} :: 0 <= i < |stats.history| ==>
              stats.history[i] == ((frames[i + 1].taken - frames[i].after) / 1000000) as real
    ensures |echoes| == |frames|
    ensures forall i :: 0 <= i < |frames| ==> echoes[i] == frames[i].packet.(recvTs := frames[i].wall)
  {
    SamplesOneByOne(frames);
    EchoesOneByOne(frames);
    echoes, stats, recvCounter := HandleFrames(frames);
  }

  method HandleFrames(frames: seq<Frame>) returns (echoes: seq<Packet>, stats: RunningStatistics, recvCounter: nat)
    requires Monotone(frames)
    ensures recvCounter == |frames| && echoes == Echoes(frames)
    ensures stats.Valid() && stats.history == Samples(frames)
  {
    stats := new RunningStatistics();
    echoes, recvCounter := [], 0;
    var time := 0;
    while recvCounter < |frames|
      invariant recvCounter <= |frames|
      invariant recvCounter > 0 ==> time == frames[recvCounter - 1].after
      invariant fresh(stats) && stats.Valid() && stats.history == Samples(frames[..recvCounter])
      invariant echoes == Echoes(frames[..recvCounter])
    {
      var frame := frames[recvCounter];
      assert frames[..recvCounter + 1][..recvCounter] == frames[..recvCounter];
      if recvCounter == 0 {
        time := frame.after;
      } else {
        stats.Update(((frame.taken - time) / NANOS_PER_MILLI) as real);
        time := frame.after;
      }
      echoes := echoes + [frame.packet.(recvTs := frame.wall)];
      recvCounter := recvCounter + 1;
    }
    assert frames[..recvCounter] == frames;
  }
}

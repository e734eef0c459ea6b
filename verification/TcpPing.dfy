/** The TCP ping end to end (`ping/src/tcp.rs`): the client's tasks, one framed stream in each
    direction, and the server's `client_handler`, with every interleaving of their steps. */
module TcpPing {
  import opened Prelude
  import opened LogTask
  import opened EchoClient
  import opened Statistics

  /** The handler's variables: `time` is its last clock reading, `samples` what its statistics
      were given, `echoing` the frame it has decoded but not yet written back. Histories: `stamps` are the time
      stamps it gave, in order, `takes` its clock when it took each frame, and again after it was
      sampled. */
  datatype Server = Server(clock: nat, recvCounter: nat, time: nat, samples: seq<real>, echoing: Option<Packet>,
                           stamps: seq<nat>, takes: seq<(nat, nat)>)

  datatype State = State(client: Client, toServer: seq<Packet>, server: Server, toClient: seq<Packet>)

  datatype Event =
    | Task(a: Action)
    | WriteFrame
    | ServerClock(t: nat)
    | ServerRead(after: nat, serverTs: nat)
    | ServerWrite
    | ReadFrame

  function Init(identifier: nat, len: nat, count: Option<nat>, now: nat, serverNow: nat): State {
    State(NewClient(identifier, len, count, now), [], Server(serverNow, 0, serverNow, [], None, [], []), [])
  }

  /** The handler takes one frame: from the second on it samples the whole milliseconds since
      the previous one; it reads the clock again, as `after`, to time the next, and it stamps the
      packet with the wall clock. */
  function TakeFrame(v: Server, p: Packet, after: nat, serverTs: nat): Server
    requires v.time <= v.clock
  {
    var samples := if v.recvCounter == 0 then v.samples
                   else v.samples + [((v.clock - v.time) / NANOS_PER_MILLI) as real];
    v.(clock := after, time := after, samples := samples, echoing := Some(Echoed(p, serverTs)),
        stamps := v.stamps + [serverTs], takes := v.takes + [(v.clock, after)])
  }

  function Do(s: State, e: Event): Option<State> {
    match e
    case Task(a) =>
      var c := Local(s.client, a);
      if c.None? then None else Some(s.(client := c.value))
    case WriteFrame =>
      var r := Emit(s.client);
      if r.None? then None else Some(s.(client := r.value.0, toServer := s.toServer + [r.value.1]))
    case ServerClock(t) =>
      if t < s.server.clock then None else Some(s.(server := s.server.(clock := t)))
    case ServerRead(after, ts) =>
      if s.toServer == [] || s.server.echoing.Some? || !(s.server.time <= s.server.clock <= after) then None
      else Some(s.(toServer := s.toServer[1..], server := TakeFrame(s.server, s.toServer[0], after, ts)))
    case ServerWrite =>
      if s.server.echoing.None? then None
      else Some(s.(toClient := s.toClient + [s.server.echoing.value],
                   server := s.server.(echoing := None, recvCounter := s.server.recvCounter + 1)))
    case ReadFrame =>
      if s.toClient == [] then None
      else
        var c := Receive(s.client, s.toClient[0]);
        if c.None? then None else Some(s.(client := c.value, toClient := s.toClient[1..]))
  }

  function Run(s: State, es: seq<Event>): Option<State> {
    if es == [] then Some(s)
    else
      var r := Run(s, es[..|es| - 1]);
      if r.None? then None else Do(r.value, es[|es| - 1])
  }

  function Echoing(v: Server): seq<Packet> {
    if v.echoing.Some? then [v.echoing.value] else []
  }

  /** Everything sent but not yet received, oldest first: towards the client, in the handler,
      towards the server. */
  function InFlight(s: State): seq<Packet> {
    s.toClient + Echoing(s.server) + s.toServer
  }

  /** The streams are one FIFO: what the client received, then what is in flight, is what it
      sent, number by number. */
  predicate Inv(s: State) {
    && ClientInv(s.client)
    && |s.client.received| + |InFlight(s)| == |s.client.sent|
    && (forall i :: 0 <= i < |s.client.received| ==> s.client.received[i].seqNo == i)
    && InFlightInv(s.client, InFlight(s))
    && ServerInv(s)
  }

  predicate Stamps(s: State) {
    StampsInv(s.server.stamps, s.client.received, s.toClient + Echoing(s.server))
  }

  /** The server's stamps, in order, are those of the results received and of the echoed packets
      under way. */
  predicate StampsInv(stamps: seq<nat>, received: seq<EchoResult>, echoed: seq<Packet>) {
    && |stamps| == |received| + |echoed|
    && (forall i :: 0 <= i < |received| ==> received[i].serverTs == stamps[i])
    && (forall i :: 0 <= i < |echoed| ==> echoed[i].recvTs == stamps[|received| + i])
  }

  predicate InFlightInv(c: Client, fs: seq<Packet>) {
    forall i :: 0 <= i < |fs| ==> FromSent(c, fs[i]) && fs[i].seqNo == |c.received| + i
  }

  predicate ServerInv(s: State) {
    && s.server.time <= s.server.clock
    && s.server.recvCounter == |s.client.received| + |s.toClient|
    && var frames := s.server.recvCounter + |Echoing(s.server)|;
       |s.server.samples| == if frames == 0 then 0 else frames - 1
  }

  lemma TaskKeepsInv(s: State, a: Action)
    requires Inv(s) && Do(s, Task(a)).Some?
    ensures Inv(Do(s, Task(a)).value)
  {
    LocalKeepsInv(s.client, a);
  }

  lemma WriteKeepsInv(s: State)
    requires Inv(s) && Do(s, WriteFrame).Some?
    ensures Inv(Do(s, WriteFrame).value)
  {
    EmitKeepsInv(s.client);
    var t := Do(s, WriteFrame).value;
    assert InFlight(t) == InFlight(s) + [Emit(s.client).value.1];
  }

  lemma ReplaceInFlight(c: Client, fs: seq<Packet>, k: nat, q: Packet)
    requires InFlightInv(c, fs) && k < |fs| && q.(recvTs := 0) == fs[k].(recvTs := 0)
    ensures InFlightInv(c, fs[k := q])
  {
    assert FromSent(c, fs[k]);
  }

  lemma StampInPlace(a: seq<Packet>, b: seq<Packet>, q: Packet)
    requires b != []
    ensures (a + [] + b)[|a|] == b[0]
    ensures a + [q] + b[1..] == (a + [] + b)[|a| := q]
  {
  }

  lemma ServerReadKeepsInv(s: State, after: nat, ts: nat)
    requires Inv(s) && Do(s, ServerRead(after, ts)).Some?
    ensures Inv(Do(s, ServerRead(after, ts)).value)
  {
    var q := Echoed(s.toServer[0], ts);
    StampInPlace(s.toClient, s.toServer, q);
    ReplaceInFlight(s.client, InFlight(s), |s.toClient|, q);
  }

  lemma ServerWriteKeepsInv(s: State)
    requires Inv(s) && Do(s, ServerWrite).Some?
    ensures Inv(Do(s, ServerWrite).value)
  {
    var t := Do(s, ServerWrite).value;
    assert InFlight(t) == InFlight(s);
  }

  lemma ReadKeepsStamps(s: State)
    requires Inv(s) && Stamps(s) && Do(s, ReadFrame).Some?
    ensures Stamps(Do(s, ReadFrame).value)
  {
    var p, t := s.toClient[0], Do(s, ReadFrame).value;
    assert InFlight(s)[0] == p;
    ReceiveKeepsInv(s.client, p);
    StampRead(s.server.stamps, s.client.received, t.client.received, s.toClient + Echoing(s.server));
    assert (s.toClient + Echoing(s.server))[1..] == t.toClient + Echoing(t.server);
  }

  lemma ClientKeepsStamps(s: State, e: Event)
    requires Inv(s) && Stamps(s) && Do(s, e).Some? && (e.Task? || e.WriteFrame?)
    ensures Stamps(Do(s, e).value)
  {
    match e
    case Task(a) => LocalKeepsInv(s.client, a);
    case WriteFrame => EmitKeepsInv(s.client);
  }

  lemma DoKeepsStamps(s: State, e: Event)
    requires Inv(s) && Stamps(s) && Do(s, e).Some?
    ensures Stamps(Do(s, e).value)
  {
    var t := Do(s, e).value;
    match e
    case Task(_) => ClientKeepsStamps(s, e);
    case WriteFrame => ClientKeepsStamps(s, e);
    case ReadFrame => ReadKeepsStamps(s);
    case ServerClock(_) =>
    case ServerRead(_, ts) =>
      assert s.toClient + Echoing(s.server) == s.toClient;
      StampAdded(s.server.stamps, s.client.received, s.toClient, Echoed(s.toServer[0], ts));
    case ServerWrite =>
      assert t.toClient + Echoing(t.server) == s.toClient + Echoing(s.server);
  }

  lemma StampAdded(stamps: seq<nat>, received: seq<EchoResult>, echoed: seq<Packet>, q: Packet)
    requires StampsInv(stamps, received, echoed)
    ensures StampsInv(stamps + [q.recvTs], received, echoed + [q])
  {
  }

  lemma StampRead(stamps: seq<nat>, received: seq<EchoResult>, more: seq<EchoResult>, echoed: seq<Packet>)
    requires StampsInv(stamps, received, echoed) && echoed != []
    requires |more| == |received| + 1 && more[..|received|] == received && more[|received|].serverTs == echoed[0].recvTs
    ensures StampsInv(stamps, more, echoed[1..])
  {
    forall i | 0 <= i < |received| ensures more[i] == received[i] {
      assert more[..|received|][i] == received[i];
    }
    forall i | 0 <= i < |echoed[1..]| ensures echoed[1..][i].recvTs == stamps[|more| + i] {
      assert echoed[1..][i] == echoed[i + 1];
    }
  }

  lemma NextInFlight(c: Client, d: Client, fs: seq<Packet>)
    requires fs != [] && InFlightInv(c, fs)
    requires d.sent == c.sent && |d.received| == |c.received| + 1
    ensures InFlightInv(d, fs[1..])
  {
    forall i | 0 <= i < |fs[1..]| ensures FromSent(d, fs[1..][i]) && fs[1..][i].seqNo == |d.received| + i {
      assert fs[1..][i] == fs[i + 1];
    }
  }

  lemma ReadKeepsInv(s: State)
    requires Inv(s) && Do(s, ReadFrame).Some?
    ensures Inv(Do(s, ReadFrame).value)
  {
    var t := Do(s, ReadFrame).value;
    PopFront(s.toClient, Echoing(s.server), s.toServer);
    var p := s.toClient[0];
    assert FromSent(s.client, p) && p.seqNo == |s.client.received| by {
      assert InFlight(s)[0] == p;
    }
    ClientReads(s.client, p, t.client);
    NextInFlight(s.client, t.client, InFlight(s));
  }

  lemma PopFront<T>(a: seq<T>, b: seq<T>, c: seq<T>)
    requires a != []
    ensures (a + b + c)[0] == a[0] && a[1..] + b + c == (a + b + c)[1..]
  {
  }

  lemma ClientReads(c: Client, p: Packet, d: Client)
    requires ClientInv(c) && FromSent(c, p) && Receive(c, p) == Some(d) && p.seqNo == |c.received|
    requires forall i :: 0 <= i < |c.received| ==> c.received[i].seqNo == i
    ensures ClientInv(d) && d.sent == c.sent && |d.received| == |c.received| + 1
    ensures forall i :: 0 <= i < |d.received| ==> d.received[i].seqNo == i
  {
    ReceiveKeepsInv(c, p);
    forall i | 0 <= i < |d.received| ensures d.received[i].seqNo == i {
      if i < |c.received| {
        assert d.received[..|c.received|][i] == c.received[i];
      }
    }
  }

  lemma {:induction false} RunKeepsInv(s: State, es: seq<Event>)
    requires Inv(s) && Stamps(s) && Run(s, es).Some?
    ensures Inv(Run(s, es).value) && Stamps(Run(s, es).value)
  {
    if es != [] {
      RunKeepsInv(s, es[..|es| - 1]);
      var t, e := Run(s, es[..|es| - 1]).value, es[|es| - 1];
      DoKeepsStamps(t, e);
      DoKeepsInv(t, e);
    }
  }

  /** The times from the second reading for each frame to the taking of the next, in whole
      milliseconds. */
  function Sampled(takes: seq<(nat, nat)>): seq<real> {
    if |takes| < 2 then []
    else
      var from, to := takes[|takes| - 2].1, takes[|takes| - 1].0;
      Sampled(takes[..|takes| - 1]) + [((if from <= to then to - from else 0) / NANOS_PER_MILLI) as real]
  }

  /** No clock reading of the handler precedes the one before it. */
  predicate InOrder(takes: seq<(nat, nat)>) {
    |takes| >= 2 ==> InOrder(takes[..|takes| - 1]) && takes[|takes| - 2].1 <= takes[|takes| - 1].0
  }

  lemma {:induction false} SampledValues(takes: seq<(nat, nat)>)
    requires InOrder(takes)
    ensures |Sampled(takes)| == if takes == [] then 0 else |takes| - 1
    ensures forall i {:trigger Sampled(takes)[i]} :: 0 <= i < |Sampled(takes)| ==>
              && takes[i].1 <= takes[i + 1].0
              && Sampled(takes)[i] == ((takes[i + 1].0 - takes[i].1) / 1000000) as real
  {
    if takes != [] {
      var init := takes[..|takes| - 1];
      SampledValues(init);
      forall i | 0 <= i < |Sampled(takes)|
        ensures takes[i].1 <= takes[i + 1].0
        ensures Sampled(takes)[i] == ((takes[i + 1].0 - takes[i].1) / 1000000) as real
      {
        if i < |Sampled(init)| {
          assert Sampled(takes)[i] == Sampled(init)[i];
        }
      }
    }
  }

  predicate ServerTimes(v: Server) {
    && |v.takes| == |v.stamps| == v.recvCounter + |Echoing(v)|
    && v.samples == Sampled(v.takes) && InOrder(v.takes) && v.time <= v.clock
    && (v.takes != [] ==> v.takes[|v.takes| - 1].1 == v.time)
  }

  lemma TakeKeepsTimes(v: Server, p: Packet, after: nat, ts: nat)
    requires ServerTimes(v) && v.echoing.None? && v.clock <= after
    ensures ServerTimes(TakeFrame(v, p, after, ts))
  {
    assert (v.takes + [(v.clock, after)])[..|v.takes|] == v.takes;
  }

  lemma DoKeepsTimes(s: State, e: Event)
    requires ServerTimes(s.server) && Do(s, e).Some?
    ensures ServerTimes(Do(s, e).value.server)
  {
    match e
    case ServerRead(after, ts) => TakeKeepsTimes(s.server, s.toServer[0], after, ts);
    case _ =>
  }

  lemma {:induction false} RunKeepsTimes(s: State, es: seq<Event>)
    requires ServerTimes(s.server) && Run(s, es).Some?
    ensures ServerTimes(Run(s, es).value.server)
  {
    if es != [] {
      RunKeepsTimes(s, es[..|es| - 1]);
      DoKeepsTimes(Run(s, es[..|es| - 1]).value, es[|es| - 1]);
    }
  }

  lemma DoKeepsTimely(s: State, e: Event)
    requires Timely(s.client) && Do(s, e).Some?
    ensures Timely(Do(s, e).value.client)
  {
    match e
    case Task(a) => LocalKeepsTimely(s.client, a);
    case WriteFrame => EmitKeepsTimely(s.client);
    case ReadFrame => ReceiveKeepsTimely(s.client, s.toClient[0]);
    case _ =>
  }

  lemma {:induction false} RunKeepsTimely(s: State, es: seq<Event>)
    requires Timely(s.client) && Run(s, es).Some?
    ensures Timely(Run(s, es).value.client)
  {
    if es != [] {
      RunKeepsTimely(s, es[..|es| - 1]);
      DoKeepsTimely(Run(s, es[..|es| - 1]).value, es[|es| - 1]);
    }
  }

  /** The logged results are the first packets sent, in order, each with its own send time and
      its own server stamp. */
  predicate LogsPrefix(c: Client, stamps: seq<nat>) {
    && |c.logged| <= |c.sent| && |c.logged| <= |stamps|
    && forall i :: 0 <= i < |c.logged| ==>
         && c.logged[i].seqNo == i == c.sent[i].seqNo
         && c.logged[i].sendTs == c.sent[i].sendTs <= c.logged[i].recvTs
         && c.logged[i].serverTs == stamps[i]
         && c.logged[i].rtt == (c.logged[i].recvTs - c.logged[i].sendTs) as real / 1000000.0
  }

  lemma InvLogsPrefix(s: State)
    requires Inv(s) && Stamps(s)
    ensures LogsPrefix(s.client, s.server.stamps)
  {
    var c := s.client;
    forall i | 0 <= i < |c.logged| ensures c.logged[i] == c.received[i] && ResultFromSent(c, c.received[i]) {
    }
  }

  /** In every run the logged results are, at every moment, the first `k` packets sent; the rest is
      queued or in flight, and nothing is lost; and the handler has one inter-arrival sample fewer
      than the frames it has taken. */
  lemma LoggedIsPrefixOfSent(identifier: nat, len: nat, count: Option<nat>, now: nat, serverNow: nat, es: seq<Event>)
    requires Run(Init(identifier, len, count, now, serverNow), es).Some?
    ensures var s := Run(Init(identifier, len, count, now, serverNow), es).value;
            var c, v := s.client, s.server;
            && !c.underflowed
            && (forall i :: 0 <= i < |c.sent| ==> c.sent[i] == Packet(identifier, c.sent[i].sendTs, 0, i, len))
            && StampedInTime(c.sent, c.emittedAt) && ReceivedInTime(c.received, c.receivedAt)
            && c.logged <= c.received
            && LogsPrefix(c, v.stamps)
            && |v.samples| == (var frames := v.recvCounter + |Echoing(v)|; if frames == 0 then 0 else frames - 1)
            && c.recvCounter + (if c.logging then 1 else 0) + |c.chan| + |Held(c)| + |InFlight(s)| == |c.sent|
  {
    NewClientInv(identifier, len, count, now);
    var s0 := Init(identifier, len, count, now, serverNow);
    RunKeepsInv(s0, es);
    RunKeepsTimely(s0, es);
    RunKeepsSetup(s0, es);
    InvLogsPrefix(Run(s0, es).value);
  }

  /** For every two neighbours of the frames it has taken, the handler has sampled the whole milliseconds from
      the second clock reading for the first to the taking of the second. */
  predicate SamplesMatch(v: Server) {
    && |v.takes| == v.recvCounter + |Echoing(v)|
    && |v.samples| == (if v.takes == [] then 0 else |v.takes| - 1)
    && forall i {:trigger v.samples[i]} :: 0 <= i < |v.samples| ==>
         && v.takes[i].1 <= v.takes[i + 1].0
         && v.samples[i] == ((v.takes[i + 1].0 - v.takes[i].1) / 1000000) as real
  }

  lemma TimesMatch(v: Server)
    requires ServerTimes(v)
    ensures SamplesMatch(v)
  {
    SampledValues(v.takes);
    forall i | 0 <= i < |v.samples|
      ensures v.takes[i].1 <= v.takes[i + 1].0
      ensures v.samples[i] == ((v.takes[i + 1].0 - v.takes[i].1) / 1000000) as real
    {
      assert v.samples[i] == Sampled(v.takes)[i];
    }
  }

  lemma HandlerSamplesOfRun(identifier: nat, len: nat, count: Option<nat>, now: nat, serverNow: nat, es: seq<Event>)
    requires Run(Init(identifier, len, count, now, serverNow), es).Some?
    ensures SamplesMatch(Run(Init(identifier, len, count, now, serverNow), es).value.server)
  {
    RunKeepsTimes(Init(identifier, len, count, now, serverNow), es);
    TimesMatch(Run(Init(identifier, len, count, now, serverNow), es).value.server);
  }

  /** In every run the two statistics have been given the round trips of the logged results, one by one, and the
      whole milliseconds between their receive times, so the round-trip statistic has their mean and extremes. */
  lemma RoundTripOfRun(identifier: nat, len: nat, count: Option<nat>, now: nat, serverNow: nat, es: seq<Event>,
                       s0: Stats)
    requires s0.samples == 0 && Run(Init(identifier, len, count, now, serverNow), es).Some?
    ensures SamplesAgree(Run(Init(identifier, len, count, now, serverNow), es).value.client)
    ensures var c := Run(Init(identifier, len, count, now, serverNow), es).value.client;
            c.logged != [] ==> RoundTripAgrees(c, s0)
  {
    NewClientInv(identifier, len, count, now);
    RunKeepsInv(Init(identifier, len, count, now, serverNow), es);
    var c := Run(Init(identifier, len, count, now, serverNow), es).value.client;
    SamplesOfClient(c);
    if c.logged != [] {
      RoundTripOfClient(c, s0);
    }
  }

  lemma InterArrivalOfRun(identifier: nat, len: nat, count: Option<nat>, now: nat, serverNow: nat,
                          es: seq<Event>, s0: Stats)
    requires s0.samples == 0
    requires Run(Init(identifier, len, count, now, serverNow), es).Some?
    requires |Run(Init(identifier, len, count, now, serverNow), es).value.client.logged| >= 2
    ensures InterArrivalAgrees(Run(Init(identifier, len, count, now, serverNow), es).value.client, s0)
  {
    NewClientInv(identifier, len, count, now);
    RunKeepsInv(Init(identifier, len, count, now, serverNow), es);
    InterArrivalOfClient(Run(Init(identifier, len, count, now, serverNow), es).value.client, s0);
  }

  // ----- Every packet can be logged -----

  /** How far the test is from its end: what the send task has left to do, and what each packet has left of
      its way. */
  function Rank(s: State): int {
    SenderRank(s.client) + 6 * |s.toServer| + 5 * |Echoing(s.server)| + 4 * |s.toClient| + ReceiverRank(s.client)
  }

  /** The step that brings it closer; the server's clock need not move for it. */
  function Next(s: State): Event {
    if ReceiverRank(s.client) > 0 then Task(NextOfReceiver(s.client))
    else if s.toClient != [] then ReadFrame
    else if s.server.echoing.Some? then ServerWrite
    else if s.toServer != [] then ServerRead(s.server.clock, 0)
    else if s.client.phase.Stamped? then WriteFrame
    else Task(NextOfSender(s.client))
  }

  /** The send task has ended and nothing is under way. */
  predicate Over(s: State) {
    s.client.phase == Finished && InFlight(s) == [] && ReceiverRank(s.client) == 0
  }

  lemma NextReadGetsCloser(s: State)
    requires Inv(s) && ReceiverRank(s.client) == 0 && s.toClient != []
    ensures Do(s, ReadFrame).Some?
    ensures var t := Do(s, ReadFrame).value; Rank(t) < Rank(s) && SameSetup(s.client, t.client)
  {
    assert InFlight(s)[0] == s.toClient[0];
    ReceiverTakes(s.client, s.toClient[0]);
  }

  lemma NextEchoGetsCloser(s: State)
    requires Inv(s) && s.toClient == [] && InFlight(s) != []
    ensures var e := if s.server.echoing.Some? then ServerWrite else ServerRead(s.server.clock, 0);
            Do(s, e).Some? && Rank(Do(s, e).value) < Rank(s) && Do(s, e).value.client == s.client
  {
  }

  lemma NextGetsCloser(s: State)
    requires Inv(s) && s.client.count.Some? && !Over(s)
    ensures Do(s, Next(s)).Some?
    ensures var t := Do(s, Next(s)).value; Rank(t) < Rank(s) && SameSetup(s.client, t.client)
  {
    if ReceiverRank(s.client) > 0 {
      ReceiverGetsOn(s.client);
    } else if s.toClient != [] {
      NextReadGetsCloser(s);
    } else if InFlight(s) != [] {
      NextEchoGetsCloser(s);
    } else if s.client.phase.Stamped? {
      SenderEmits(s.client);
    } else {
      SenderGetsOn(s.client);
    }
  }

  lemma OneStepCloser(s: State) returns (t: State)
    requires Inv(s) && s.client.count.Some? && !Over(s)
    ensures Do(s, Next(s)) == Some(t) && Inv(t) && 0 <= Rank(t) < Rank(s) && SameSetup(s.client, t.client)
  {
    NextGetsCloser(s);
    t := Do(s, Next(s)).value;
    DoKeepsInv(s, Next(s));
    SenderIsNotDone(t.client);
  }

  lemma RunExtends(s0: State, es: seq<Event>, s: State, e: Event)
    requires Run(s0, es) == Some(s)
    ensures Run(s0, es + [e]) == Do(s, e)
  {
    assert (es + [e])[..|es|] == es;
  }

  lemma {:induction false} Finish(s0: State, es: seq<Event>, s: State) returns (all: seq<Event>, t: State)
    requires Run(s0, es) == Some(s) && Inv(s) && s.client.count.Some?
    ensures es <= all && Run(s0, all) == Some(t) && Inv(t) && Over(t) && SameSetup(s.client, t.client)
    decreases Rank(s)
  {
    all, t := es, s;
    if !Over(s) {
      var u := OneStepCloser(s);
      RunExtends(s0, es, s, Next(s));
      all, t := Finish(s0, es + [Next(s)], u);
    }
  }

  /** From every state of every run with a configured count the test can still come to its end, and then every
      one of the packets `0..count-1` has been sent, echoed, logged and counted. */
  lemma CanFinish(identifier: nat, len: nat, count: Option<nat>, now: nat, serverNow: nat, es: seq<Event>)
    requires count.Some? && Run(Init(identifier, len, count, now, serverNow), es).Some?
    ensures var s0 := Init(identifier, len, count, now, serverNow);
            exists all :: es <= all && Run(s0, all).Some? && AllCounted(Run(s0, all).value.client, count.value)
  {
    NewClientInv(identifier, len, count, now);
    var s0 := Init(identifier, len, count, now, serverNow);
    RunKeepsInv(s0, es);
    RunKeepsSetup(s0, es);
    var all, t := Finish(s0, es, Run(s0, es).value);
    assert AllCounted(t.client, count.value);
  }

  /** The send task has ended after `n` packets, and as many results are logged and counted. */
  predicate AllCounted(c: Client, n: nat) {
    c.phase == Finished && c.recvCounter == |c.logged| == |c.sent| == c.sendCounter == n
  }

  lemma {:induction false} RunKeepsSetup(s: State, es: seq<Event>)
    requires Run(s, es).Some?
    ensures SameSetup(s.client, Run(s, es).value.client)
  {
    if es != [] {
      RunKeepsSetup(s, es[..|es| - 1]);
      DoKeepsSetup(Run(s, es[..|es| - 1]).value, es[|es| - 1]);
    }
  }

  lemma DoKeepsSetup(s: State, e: Event)
    requires Do(s, e).Some?
    ensures SameSetup(s.client, Do(s, e).value.client)
  {
  }

  lemma DoKeepsInv(s: State, e: Event)
    requires Inv(s) && Do(s, e).Some?
    ensures Inv(Do(s, e).value)
  {
    match e
    case Task(a) => TaskKeepsInv(s, a);
    case WriteFrame => WriteKeepsInv(s);
    case ReadFrame => ReadKeepsInv(s);
    case ServerRead(after, ts) => ServerReadKeepsInv(s, after, ts);
    case ServerWrite => ServerWriteKeepsInv(s);
    case ServerClock(_) => assert InFlight(Do(s, e).value) == InFlight(s);
  }
}

/** The client half of the UDP and the TCP ping (`ping/src/udp.rs`, `ping/src/tcp.rs`): a send
    task, a receive task and a log task that share two counters and a bounded channel. The two
    clients run the same three tasks; only the network between them and the server differs. */
module EchoClient {
  import opened Prelude
  import opened LogTask
  import opened Statistics

  /** `UdpEchoPacket` / `TcpEchoPacket`; `len` stands for the zero payload. */
  datatype Packet = Packet(identifier: nat, sendTs: nat, recvTs: nat, seqNo: nat, len: nat)

  datatype EchoResult = EchoResult(seqNo: nat, rtt: real, sendTs: nat, serverTs: nat, recvTs: nat) {
    function ToEntry(): Entry {
      Entry(rtt, recvTs)
    }
  }

  const CHANNEL_SIZE := 10000

  /** What both echo servers do to a packet. */
  function Echoed(p: Packet, serverTs: nat): Packet {
    p.(recvTs := serverTs)
  }

  /** What the receive task makes of a packet that arrives at `now`; `None` when the
      unsigned difference for the round trip would go below zero. */
  function ResultOf(p: Packet, now: nat): Option<EchoResult> {
    if now < p.sendTs then None
    else Some(EchoResult(p.seqNo, (now - p.sendTs) as real / 1000000.0, p.sendTs, p.recvTs, now))
  }

  /** A result carries the packet's number and two stamps, the time of its arrival, and the milliseconds in
      between; there is one unless the packet is stamped later than its arrival. */
  lemma ResultFields(p: Packet, now: nat)
    ensures ResultOf(p, now).Some? <==> p.sendTs <= now
    ensures ResultOf(p, now).Some? ==>
              var r := ResultOf(p, now).value;
              && r.seqNo == p.seqNo && r.sendTs == p.sendTs && r.serverTs == p.recvTs && r.recvTs == now
              && r.rtt == (now - p.sendTs) as real / 1000000.0
  {
  }

  // ----- The three tasks as steps -----

  /** Where the send task stands in its loop. */
  datatype SendPhase = AtCheck | Pacing | Stamped(p: Packet) | Sent | Finished

  /** Histories: `sent` are the packets handed to the network, at the times `emittedAt`, `received` the results
      made by the receive task, at the times `receivedAt`, `logged` the results given to the statistics.
      `holding` is the receive task's result while it waits for room in `chan`; `logging` says that the
      log task has fed the statistics but not yet incremented `recvCounter`. */
  datatype Client = Client(
    identifier: nat, len: nat, count: Option<nat>,
    now: nat,
    sendCounter: nat, phase: SendPhase, sent: seq<Packet>, emittedAt: seq<nat>,
    holding: Option<EchoResult>, chan: seq<EchoResult>, received: seq<EchoResult>, receivedAt: seq<nat>,
    logging: bool, log: LogState, recvCounter: nat, logged: seq<EchoResult>,
    underflowed: bool)

  function NewClient(identifier: nat, len: nat, count: Option<nat>, now: nat): Client {
    Client(identifier, len, count, now, 0, AtCheck, [], [], None, [], [], [], false, START, 0, [], false)
  }

  datatype Action = Advance(t: nat) | Check | Stamp | CountSent | Push | LogTake | LogCount

  /** Steps that stay inside the client; `None` when the step is not enabled. */
  function Local(c: Client, a: Action): Option<Client> {
    if c.underflowed then None
    else
      match a
      case Advance(t) =>
        if c.now <= t then Some(c.(now := t)) else None
      case Check =>
        if c.phase != AtCheck then None
        else if c.count.Some? && c.sendCounter >= c.count.value then Some(c.(phase := Finished))
        else Some(c.(phase := Pacing))
      case Stamp =>
        if c.phase != Pacing then None
        else Some(c.(phase := Stamped(Packet(c.identifier, c.now, 0, c.sendCounter, c.len))))
      case CountSent =>
        if c.phase != Sent then None
        else Some(c.(phase := AtCheck, sendCounter := c.sendCounter + 1))
      case Push =>
        if c.holding.None? || |c.chan| >= CHANNEL_SIZE then None
        else Some(c.(holding := None, chan := c.chan + [c.holding.value]))
      case LogTake =>
        if c.chan == [] || c.logging then None
        else
          var l := LogStep(c.log, c.chan[0].ToEntry());
          if l.None? then Some(c.(underflowed := true))
          else Some(c.(chan := c.chan[1..], log := l.value, logging := true, logged := c.logged + [c.chan[0]]))
      case LogCount =>
        if !c.logging then None
        else Some(c.(logging := false, recvCounter := c.recvCounter + 1))
  }

  /** The send task hands its stamped packet to the network. */
  function Emit(c: Client): Option<(Client, Packet)> {
    if c.underflowed || !c.phase.Stamped? then None
    else Some((c.(phase := Sent, sent := c.sent + [c.phase.p], emittedAt := c.emittedAt + [c.now]), c.phase.p))
  }

  /** The receive task takes a packet from the network. */
  function Receive(c: Client, p: Packet): Option<Client> {
    if c.underflowed || c.holding.Some? then None
    else
      match ResultOf(p, c.now)
      case None => Some(c.(underflowed := true))
      case Some(r) => Some(c.(holding := Some(r), received := c.received + [r], receivedAt := c.receivedAt + [c.now]))
  }

  // ----- What every step keeps -----

  function Held(c: Client): seq<EchoResult> {
    if c.holding.Some? then [c.holding.value] else []
  }

  function Entries(rs: seq<EchoResult>): (es: seq<Entry>)
    ensures |es| == |rs|
    ensures forall i :: 0 <= i < |rs| ==> es[i] == rs[i].ToEntry()
  {
    if rs == [] then [] else Entries(rs[..|rs| - 1]) + [rs[|rs| - 1].ToEntry()]
  }

  /** The packet with sequence number `p.seqNo` really went out, and only the server's
      time stamp differs. */
  predicate FromSent(c: Client, p: Packet) {
    p.seqNo < |c.sent| && p.(recvTs := 0) == c.sent[p.seqNo]
  }

  predicate ResultFromSent(c: Client, r: EchoResult) {
    && r.seqNo < |c.sent|
    && r.sendTs == c.sent[r.seqNo].sendTs <= r.recvTs <= c.now
    && r.rtt == (r.recvTs - r.sendTs) as real / 1000000.0
  }

  /** Every packet was stamped between the moments the one before and itself went out. */
  predicate StampedInTime(sent: seq<Packet>, emittedAt: seq<nat>) {
    && |emittedAt| == |sent|
    && (forall i :: 0 <= i < |sent| ==> sent[i].sendTs <= emittedAt[i])
    && (forall i, j :: 0 <= i < j < |sent| ==> emittedAt[i] <= sent[j].sendTs)
  }

  predicate Timely(c: Client) {
    && StampedInTime(c.sent, c.emittedAt)
    && (forall i :: 0 <= i < |c.emittedAt| ==> c.emittedAt[i] <= LatestStamp(c))
    && LatestStamp(c) <= c.now
    && ReceivedInTime(c.received, c.receivedAt)
  }

  /** Every result carries the moment at which its packet was received. */
  predicate ReceivedInTime(received: seq<EchoResult>, receivedAt: seq<nat>) {
    |receivedAt| == |received| && forall i :: 0 <= i < |received| ==> received[i].recvTs == receivedAt[i]
  }

  /** A lower bound of the send time that the next packet to go out will carry. */
  function LatestStamp(c: Client): nat {
    if c.phase.Stamped? then c.phase.p.sendTs else c.now
  }

  predicate SenderInv(c: Client) {
    && |c.sent| == c.sendCounter + (if c.phase == Sent then 1 else 0)
    && (forall i :: 0 <= i < |c.sent| ==>
          c.sent[i] == Packet(c.identifier, c.sent[i].sendTs, 0, i, c.len) && c.sent[i].sendTs <= c.now)
    && (c.phase.Stamped? ==>
          c.phase.p == Packet(c.identifier, c.phase.p.sendTs, 0, c.sendCounter, c.len) && c.phase.p.sendTs <= c.now)
    && (c.count.Some? ==> c.sendCounter <= c.count.value)
    && (c.count.Some? && (c.phase == Pacing || c.phase.Stamped? || c.phase == Sent) ==> c.sendCounter < c.count.value)
    && (c.phase == Finished ==> c.count == Some(c.sendCounter))
  }

  predicate ReceiverInv(c: Client) {
    && c.received == c.logged + c.chan + Held(c)
    && |c.chan| <= CHANNEL_SIZE
    && (forall i :: 0 <= i < |c.received| ==> ResultFromSent(c, c.received[i]))
    && (forall i, j :: 0 <= i < j < |c.received| ==> c.received[i].recvTs <= c.received[j].recvTs)
  }

  predicate LoggerInv(c: Client) {
    && LogRun(Entries(c.logged)) == Some(c.log)
    && c.log.count == |c.logged| == c.recvCounter + (if c.logging then 1 else 0)
    && (c.logged != [] ==> c.log.time == c.logged[|c.logged| - 1].recvTs)
  }

  predicate ClientInv(c: Client) {
    !c.underflowed && SenderInv(c) && ReceiverInv(c) && LoggerInv(c)
  }

  predicate SameSetup(c: Client, d: Client) {
    c.identifier == d.identifier && c.len == d.len && c.count == d.count
  }

  lemma NewClientInv(identifier: nat, len: nat, count: Option<nat>, now: nat)
    ensures ClientInv(NewClient(identifier, len, count, now))
  {
  }

  /** The receiver's side of the invariant reads only the history, however it is spread over the
      log, the channel and the receive task. */
  lemma SameReceiver(c: Client, d: Client)
    requires ReceiverInv(c)
    requires c.sent == d.sent && c.now <= d.now && c.received == d.received
    requires d.received == d.logged + d.chan + Held(d) && |d.chan| <= CHANNEL_SIZE
    ensures ReceiverInv(d)
  {
    forall i | 0 <= i < |d.received| ensures ResultFromSent(d, d.received[i]) {
      assert ResultFromSent(c, c.received[i]);
    }
  }

  lemma SameSender(c: Client, d: Client)
    requires SenderInv(c) && SameSetup(c, d)
    requires c.sent == d.sent && c.now <= d.now && c.phase == d.phase && c.sendCounter == d.sendCounter
    ensures SenderInv(d)
  {
  }

  lemma LogOneMore(rs: seq<EchoResult>, r: EchoResult)
    ensures Entries(rs + [r]) == Entries(rs) + [r.ToEntry()]
    ensures LogRun(Entries(rs + [r]))
         == if LogRun(Entries(rs)).None? then None else LogStep(LogRun(Entries(rs)).value, r.ToEntry())
  {
    assert (rs + [r])[..|rs|] == rs;
    assert Entries(rs + [r])[..|rs|] == Entries(rs);
  }

  /** The receive times are in order, so the log task's difference does not underflow. */
  lemma LogTakeIsEnabled(c: Client)
    requires ReceiverInv(c) && LoggerInv(c) && c.chan != []
    ensures LogStep(c.log, c.chan[0].ToEntry()).Some?
  {
    assert c.received[|c.logged|] == c.chan[0];
    if c.logged != [] {
      assert c.received[|c.logged| - 1] == c.logged[|c.logged| - 1];
    }
  }

  lemma LoggerTakes(c: Client)
    requires ReceiverInv(c) && LoggerInv(c) && !c.underflowed && c.chan != [] && !c.logging
    ensures Local(c, LogTake).Some? && !Local(c, LogTake).value.underflowed && LoggerInv(Local(c, LogTake).value)
  {
    LogTakeIsEnabled(c);
    LogOneMore(c.logged, c.chan[0]);
    LoggedOneMore(c, Local(c, LogTake).value);
  }

  lemma LoggedOneMore(c: Client, d: Client)
    requires LoggerInv(c) && c.chan != [] && !c.logging
    requires LogStep(c.log, c.chan[0].ToEntry()) == Some(d.log) && LogRun(Entries(d.logged)) == Some(d.log)
    requires d.logged == c.logged + [c.chan[0]] && d.logging && d.recvCounter == c.recvCounter
    ensures LoggerInv(d)
  {
  }

  lemma LogTakeKeeps(c: Client)
    requires ClientInv(c) && c.chan != [] && !c.logging
    ensures Local(c, LogTake).Some? && ClientInv(Local(c, LogTake).value)
  {
    LoggerTakes(c);
    var d := Local(c, LogTake).value;
    assert d.logged + d.chan == c.logged + c.chan;
    SameReceiver(c, d);
    SameSender(c, d);
  }

  lemma PushKeeps(c: Client)
    requires ClientInv(c) && Local(c, Push).Some?
    ensures ClientInv(Local(c, Push).value)
  {
    var d := Local(c, Push).value;
    assert d.logged + d.chan + [] == c.logged + c.chan + Held(c);
    SameReceiver(c, d);
    SameSender(c, d);
  }

  lemma SendTaskKeeps(c: Client, a: Action)
    requires ClientInv(c) && Local(c, a).Some? && (a.Check? || a.Stamp? || a.CountSent?)
    ensures ClientInv(Local(c, a).value)
  {
    SameReceiver(c, Local(c, a).value);
    assert SenderInv(Local(c, a).value);
  }

  lemma OtherTasksKeep(c: Client, a: Action)
    requires ClientInv(c) && Local(c, a).Some? && (a.Advance? || a.LogCount?)
    ensures ClientInv(Local(c, a).value)
  {
    SameReceiver(c, Local(c, a).value);
    SameSender(c, Local(c, a).value);
  }

  lemma LocalMovesNoPacket(c: Client, a: Action)
    requires Local(c, a).Some?
    ensures Local(c, a).value.sent == c.sent && Local(c, a).value.received == c.received
    ensures SameSetup(c, Local(c, a).value)
  {
  }

  /** No local step underflows, and each keeps the invariant. */
  lemma LocalKeepsInv(c: Client, a: Action)
    requires ClientInv(c) && Local(c, a).Some?
    ensures ClientInv(Local(c, a).value)
    ensures Local(c, a).value.sent == c.sent && Local(c, a).value.received == c.received
    ensures SameSetup(c, Local(c, a).value)
  {
    LocalMovesNoPacket(c, a);
    match a
    case LogTake => LogTakeKeeps(c);
    case Push => PushKeeps(c);
    case Advance(_) => OtherTasksKeep(c, a);
    case LogCount => OtherTasksKeep(c, a);
    case _ => SendTaskKeeps(c, a);
  }

  lemma EmitKeepsInv(c: Client)
    requires ClientInv(c) && Emit(c).Some?
    ensures var (d, p) := Emit(c).value;
            ClientInv(d) && d.sent == c.sent + [p] && p.seqNo == |c.sent| && FromSent(d, p) && d.received == c.received
            && SameSetup(c, d)
  {
  }

  lemma ResultIsFromSent(c: Client, p: Packet)
    requires SenderInv(c) && FromSent(c, p)
    ensures ResultOf(p, c.now).Some? && ResultFromSent(c, ResultOf(p, c.now).value)
  {
    assert c.sent[p.seqNo].sendTs == p.sendTs;
  }

  /** A packet echoed from one of our own never makes the round trip negative. */
  lemma ReceiveKeepsInv(c: Client, p: Packet)
    requires ClientInv(c) && Receive(c, p).Some? && FromSent(c, p)
    ensures var d := Receive(c, p).value;
            && ClientInv(d) && d.sent == c.sent && SameSetup(c, d)
            && |d.received| == |c.received| + 1 && d.received[..|c.received|] == c.received
            && d.received[|c.received|].seqNo == p.seqNo && d.received[|c.received|].serverTs == p.recvTs
  {
    ResultIsFromSent(c, p);
    var d := Receive(c, p).value;
    SameSender(c, d);
    assert d.received == d.logged + d.chan + Held(d);
    assert ReceiverInv(d) by {
      forall i | 0 <= i < |d.received| ensures ResultFromSent(d, d.received[i]) {
        assert i < |c.received| ==> ResultFromSent(c, c.received[i]);
      }
    }
  }

  lemma LocalKeepsTimely(c: Client, a: Action)
    requires Timely(c) && Local(c, a).Some?
    ensures Timely(Local(c, a).value)
  {
  }

  lemma EmitKeepsTimely(c: Client)
    requires Timely(c) && Emit(c).Some?
    ensures Timely(Emit(c).value.0)
  {
  }

  lemma ReceiveKeepsTimely(c: Client, p: Packet)
    requires Timely(c) && Receive(c, p).Some?
    ensures Timely(Receive(c, p).value)
  {
  }

  // ----- The tasks never block each other -----

  /** The channel holds 10000 results; the receive task waits with the next one, and reads no packet while it
      does. */
  lemma ReceiverWaitsForRoom(c: Client, p: Packet)
    requires !c.underflowed
    ensures Local(c, Push).Some? <==> c.holding.Some? && |c.chan| < 10000
    ensures Receive(c, p).Some? <==> c.holding.None?
  {
  }

  /** What the receive and the log task have left to do with the results made. */
  function ReceiverRank(c: Client): nat {
    (if c.logging then 1 else 0) + 2 * |c.chan| + 3 * |Held(c)|
  }

  function NextOfReceiver(c: Client): Action {
    if c.logging then LogCount else if c.chan != [] then LogTake else Push
  }

  lemma ReceiverGetsOn(c: Client)
    requires ClientInv(c) && ReceiverRank(c) > 0
    ensures Local(c, NextOfReceiver(c)).Some?
    ensures var d := Local(c, NextOfReceiver(c)).value;
            ReceiverRank(d) < ReceiverRank(c) && SenderRank(d) == SenderRank(c) && SameSetup(c, d)
  {
    if !c.logging && c.chan != [] {
      LogTakeIsEnabled(c);
    }
  }

  lemma ReceiverTakes(c: Client, p: Packet)
    requires ClientInv(c) && ReceiverRank(c) == 0 && FromSent(c, p)
    ensures Receive(c, p).Some?
    ensures var d := Receive(c, p).value; ReceiverRank(d) == 3 && SenderRank(d) == SenderRank(c) && SameSetup(c, d)
  {
    ResultIsFromSent(c, p);
  }

  /** What the send task has left to do, if it has a count: ten for every packet. */
  function SenderRank(c: Client): int {
    if c.count.None? then 0
    else
      var left := 10 * (c.count.value - c.sendCounter);
      match c.phase
      case AtCheck => left + 1
      case Pacing => left
      case Stamped(_) => left - 1
      case Sent => left - 8
      case Finished => 0
  }

  function NextOfSender(c: Client): Action {
    match c.phase
    case AtCheck => Check
    case Pacing => Stamp
    case _ => CountSent
  }

  lemma SenderIsNotDone(c: Client)
    requires SenderInv(c) && c.count.Some?
    ensures SenderRank(c) >= 0 && (SenderRank(c) == 0 <==> c.phase == Finished)
  {
  }

  lemma SenderGetsOn(c: Client)
    requires ClientInv(c) && c.count.Some? && c.phase != Finished && !c.phase.Stamped?
    ensures Local(c, NextOfSender(c)).Some?
    ensures var d := Local(c, NextOfSender(c)).value;
            SenderRank(d) < SenderRank(c) && ReceiverRank(d) == ReceiverRank(c) && SameSetup(c, d)
  {
  }

  lemma SenderEmits(c: Client)
    requires ClientInv(c) && c.count.Some? && c.phase.Stamped?
    ensures Emit(c).Some?
    ensures var d := Emit(c).value.0;
            SenderRank(d) + 6 < SenderRank(c) && ReceiverRank(d) == ReceiverRank(c) && SameSetup(c, d)
  {
  }

  // ----- What the statistics are given -----

  /** The round trips of the results, in order. */
  function RoundTrips(rs: seq<EchoResult>): (r: seq<real>)
    ensures |r| == |rs| && forall i :: 0 <= i < |rs| ==> r[i] == rs[i].rtt
  {
    seq(|rs|, i requires 0 <= i < |rs| => rs[i].rtt)
  }

  /** What the two statistics of the client have been given: the round trip of every logged result, and the
      whole milliseconds between the receive times of every two neighbours. */
  predicate SamplesAgree(c: Client) {
    && c.log.rtts == RoundTrips(c.logged)
    && |c.log.piats| == (if c.logged == [] then 0 else |c.logged| - 1)
    && forall i {:trigger c.log.piats[i]} :: 0 <= i < |c.log.piats| ==>
         c.log.piats[i] == ((c.logged[i + 1].recvTs - c.logged[i].recvTs) / 1000000) as real
  }

  lemma SamplesOfClient(c: Client)
    requires ClientInv(c)
    ensures SamplesAgree(c)
  {
    LogRunLogs(Entries(c.logged));
    ValuesOfResults(c.log, c.logged);
  }

  lemma {:induction false} ValuesOfResults(l: LogState, rs: seq<EchoResult>)
    requires HasLogged(l, Entries(rs))
    ensures l.rtts == RoundTrips(rs)
    ensures |l.piats| == if rs == [] then 0 else |rs| - 1
    ensures forall i {:trigger l.piats[i]} :: 0 <= i < |l.piats| ==>
              l.piats[i] == ((rs[i + 1].recvTs - rs[i].recvTs) / 1000000) as real
  {
    var es := Entries(rs);
    LoggedValues(l, es);
    forall i | 0 <= i < |rs| ensures es[i].rtt == rs[i].rtt && es[i].recvTs == rs[i].recvTs {
      EntryOf(rs, i);
    }
    assert l.rtts == RoundTrips(rs);
  }

  lemma EntryOf(rs: seq<EchoResult>, i: nat)
    requires i < |rs|
    ensures Entries(rs)[i].rtt == rs[i].rtt && Entries(rs)[i].recvTs == rs[i].recvTs
  {
    assert Entries(rs)[i] == rs[i].ToEntry();
  }

  /** So the statistic printed as round trip has the mean of the logged round trips, and their
      extremes. */
  predicate RoundTripAgrees(c: Client, s0: Stats)
    requires c.logged != []
  {
    var stats, k := After(s0, c.log.rtts), |c.logged|;
    && SamplesAgree(c)
    && stats.samples == k
    && Times(k as real, stats.mean) == Sum(RoundTrips(c.logged))
    && (forall r :: r in c.logged ==> stats.min <= r.rtt <= stats.max)
    && (exists r :: r in c.logged && r.rtt == stats.min)
    && (exists r :: r in c.logged && r.rtt == stats.max)
  }

  lemma RoundTripOfClient(c: Client, s0: Stats)
    requires ClientInv(c) && c.logged != [] && s0.samples == 0
    ensures RoundTripAgrees(c, s0)
  {
    SamplesOfClient(c);
    var xs := RoundTrips(c.logged);
    RefinesTwoPass(s0, xs);
    SumIsMean(xs);
    ExtremesBound(xs);
    forall r | r in c.logged ensures r.rtt in xs {
      var i :| 0 <= i < |c.logged| && c.logged[i] == r;
      assert xs[i] == r.rtt;
    }
    var i :| 0 <= i < |xs| && xs[i] == Least(xs);
    var j :| 0 <= j < |xs| && xs[j] == Greatest(xs);
    assert c.logged[i] in c.logged && c.logged[j] in c.logged;
  }

  /** And the inter-arrival statistic has one sample fewer, whose mean agrees with the receive times of the
      first and the last result up to a millisecond a sample. */
  predicate InterArrivalAgrees(c: Client, s0: Stats)
    requires |c.logged| >= 2
  {
    var k := |c.logged|;
    var n, mean := (k - 1) as real, After(s0, c.log.piats).mean;
    var span := (c.logged[k - 1].recvTs - c.logged[0].recvTs) as real / 1000000.0;
    && After(s0, c.log.rtts).samples == k
    && After(s0, c.log.piats).samples == k - 1
    && Times(n, mean) <= span < Times(n, mean) + n
  }

  lemma InterArrivalOfClient(c: Client, s0: Stats)
    requires ClientInv(c) && |c.logged| >= 2 && s0.samples == 0
    ensures InterArrivalAgrees(c, s0)
  {
    LogRunLogs(Entries(c.logged));
    InterArrivalBound(s0, c.log, Entries(c.logged));
  }
}

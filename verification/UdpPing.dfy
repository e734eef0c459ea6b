/** The UDP ping end to end (`ping/src/udp.rs`): the client's tasks, a network that loses,
    reorders and possibly duplicates datagrams, and the server's two echo loops, with every
    interleaving of their steps. */
module UdpPing {
  import opened Prelude
  import opened LogTask
  import opened EchoClient
  import opened Statistics

  /** `handlers` counts the per-client echo loops that the server's main loop has spawned and
      that have not timed out; `stamps` records the time stamps the server gave, by number. */
  datatype State = State(client: Client, toServer: multiset<Packet>, toClient: multiset<Packet>,
                         lost: nat, handlers: nat, stamps: set<(nat, nat)>)

  /** Which of the server's sockets the kernel hands a datagram to. */
  datatype Loop = MainLoop | ClientLoop

  datatype Event =
    | Task(a: Action)
    | SendDatagram
    | ServeDatagram(p: Packet, via: Loop, serverTs: nat)
    | HandlerTimeout
    | ReceiveDatagram(p: Packet)
    | LoseRequest(p: Packet)
    | LoseReply(p: Packet)
    | CopyRequest(p: Packet)
    | CopyReply(p: Packet)

  function Init(identifier: nat, len: nat, count: Option<nat>, now: nat): State {
    State(NewClient(identifier, len, count, now), multiset{}, multiset{}, 0, 0, {})
  }

  /** What the network and the server do. */
  function Outside(s: State, e: Event): Option<State> {
    match e
    case ServeDatagram(p, via, t) =>
      if p !in s.toServer || (via == ClientLoop && s.handlers == 0) then None
      else Some(s.(toServer := s.toServer - multiset{p}, toClient := s.toClient + multiset{Echoed(p, t)},
                   handlers := if via == MainLoop then s.handlers + 1 else s.handlers,
                   stamps := s.stamps + {(p.seqNo, t)}))
    case HandlerTimeout =>
      if s.handlers == 0 then None else Some(s.(handlers := s.handlers - 1))
    case LoseRequest(p) =>
      if p !in s.toServer then None
      else Some(s.(toServer := s.toServer - multiset{p}, lost := s.lost + 1))
    case LoseReply(p) =>
      if p !in s.toClient then None
      else Some(s.(toClient := s.toClient - multiset{p}, lost := s.lost + 1))
    case CopyRequest(p) =>
      if p !in s.toServer then None else Some(s.(toServer := s.toServer + multiset{p}))
    case CopyReply(p) =>
      if p !in s.toClient then None else Some(s.(toClient := s.toClient + multiset{p}))
    case _ => None
  }

  function Do(s: State, e: Event): Option<State> {
    match e
    case Task(a) =>
      var c := Local(s.client, a);
      if c.None? then None else Some(s.(client := c.value))
    case SendDatagram =>
      var r := Emit(s.client);
      if r.None? then None
      else Some(s.(client := r.value.0, toServer := s.toServer + multiset{r.value.1}))
    case ReceiveDatagram(p) =>
      var c := Receive(s.client, p);
      if p !in s.toClient || c.None? then None
      else Some(s.(client := c.value, toClient := s.toClient - multiset{p}))
    case _ => Outside(s, e)
  }

  function Run(s: State, es: seq<Event>): Option<State> {
    if es == [] then Some(s)
    else
      var r := Run(s, es[..|es| - 1]);
      if r.None? then None else Do(r.value, es[|es| - 1])
  }

  // ----- Integrity: on any network -----

  predicate Inv(s: State) {
    && ClientInv(s.client)
    && (forall p :: p in s.toServer ==> FromSent(s.client, p) && p.recvTs == 0)
    && (forall p :: p in s.toClient ==> FromSent(s.client, p))
  }

  /** Every server time stamp that is under way or received is one the server gave. */
  predicate StampsInv(s: State) {
    && (forall p :: p in s.toClient ==> (p.seqNo, p.recvTs) in s.stamps)
    && (forall i :: 0 <= i < |s.client.received| ==>
          (s.client.received[i].seqNo, s.client.received[i].serverTs) in s.stamps)
  }

  lemma SameSentKeepsInv(s: State, c: Client)
    requires Inv(s) && ClientInv(c) && c.sent == s.client.sent
    ensures Inv(s.(client := c))
  {
  }

  lemma TaskKeepsInv(s: State, a: Action)
    requires Inv(s) && Do(s, Task(a)).Some?
    ensures Inv(Do(s, Task(a)).value) && SameSetup(s.client, Do(s, Task(a)).value.client)
  {
    LocalKeepsInv(s.client, a);
    SameSentKeepsInv(s, Local(s.client, a).value);
  }

  /** What was sent stays sent. */
  lemma MoreSentKeepsInv(s: State, c: Client, p: Packet)
    requires Inv(s) && ClientInv(c) && c.sent == s.client.sent + [p] && FromSent(c, p) && p.recvTs == 0
    ensures Inv(s.(client := c, toServer := s.toServer + multiset{p}))
  {
    assert forall q :: FromSent(s.client, q) ==> FromSent(c, q);
  }

  lemma SendKeepsInv(s: State)
    requires Inv(s) && Do(s, SendDatagram).Some?
    ensures Inv(Do(s, SendDatagram).value) && SameSetup(s.client, Do(s, SendDatagram).value.client)
  {
    EmitKeepsInv(s.client);
    MoreSentKeepsInv(s, Emit(s.client).value.0, Emit(s.client).value.1);
  }

  lemma LessUnderWayKeepsInv(s: State, c: Client, p: Packet)
    requires Inv(s) && ClientInv(c) && c.sent == s.client.sent
    ensures Inv(s.(client := c, toClient := s.toClient - multiset{p}))
  {
    assert forall q :: FromSent(s.client, q) ==> FromSent(c, q);
  }

  lemma ReceiveDatagramKeepsInv(s: State, p: Packet)
    requires Inv(s) && Do(s, ReceiveDatagram(p)).Some?
    ensures Inv(Do(s, ReceiveDatagram(p)).value) && SameSetup(s.client, Do(s, ReceiveDatagram(p)).value.client)
  {
    ReceiveKeepsInv(s.client, p);
    LessUnderWayKeepsInv(s, Receive(s.client, p).value, p);
  }

  lemma ReceiveKeepsStamps(s: State, p: Packet)
    requires Inv(s) && StampsInv(s) && Do(s, ReceiveDatagram(p)).Some?
    ensures StampsInv(Do(s, ReceiveDatagram(p)).value)
  {
    ReceiveKeepsInv(s.client, p);
    StampIsReceived(s, Do(s, ReceiveDatagram(p)).value, p);
  }

  lemma ClientKeepsStamps(s: State, e: Event)
    requires Inv(s) && StampsInv(s) && Do(s, e).Some? && (e.Task? || e.SendDatagram?)
    ensures StampsInv(Do(s, e).value)
  {
    match e
    case Task(a) => LocalKeepsInv(s.client, a);
    case SendDatagram => EmitKeepsInv(s.client);
  }

  lemma DoKeepsStamps(s: State, e: Event)
    requires Inv(s) && StampsInv(s) && Do(s, e).Some?
    ensures StampsInv(Do(s, e).value)
  {
    match e
    case Task(_) => ClientKeepsStamps(s, e);
    case SendDatagram => ClientKeepsStamps(s, e);
    case ReceiveDatagram(p) => ReceiveKeepsStamps(s, p);
    case _ => OutsideKeepsStamps(s, e);
  }

  lemma StampIsReceived(s: State, t: State, p: Packet)
    requires StampsInv(s) && p in s.toClient && t.stamps == s.stamps && t.toClient <= s.toClient
    requires var n := |s.client.received|;
             && |t.client.received| == n + 1 && t.client.received[..n] == s.client.received
             && t.client.received[n].seqNo == p.seqNo && t.client.received[n].serverTs == p.recvTs
    ensures StampsInv(t)
  {
    var n := |s.client.received|;
    forall i | 0 <= i < n ensures t.client.received[i] == s.client.received[i] {
      assert t.client.received[..n][i] == s.client.received[i];
    }
  }

  /** The network makes no packets up: requests stay requests, and a new reply is the echo of a
      request, with a stamp that is recorded. */
  lemma OutsideInventsNothing(s: State, e: Event)
    requires Outside(s, e).Some?
    ensures var t := Outside(s, e).value;
            && t.client == s.client && s.stamps <= t.stamps
            && (forall p :: p in t.toServer ==> p in s.toServer)
            && (forall q :: q in t.toClient ==>
                  q in s.toClient || (IsEchoIn(s, q) && (q.seqNo, q.recvTs) in t.stamps))
  {
    match e
    case ServeDatagram(p, via, ts) => assert IsEchoIn(s, Echoed(p, ts));
    case _ =>
  }

  ghost predicate IsEchoIn(s: State, q: Packet) {
    exists p :: p in s.toServer && q == Echoed(p, q.recvTs)
  }

  lemma OutsideKeepsInv(s: State, e: Event)
    requires Inv(s) && Outside(s, e).Some?
    ensures Inv(Outside(s, e).value) && s.client == Outside(s, e).value.client
  {
    OutsideInventsNothing(s, e);
    var t := Outside(s, e).value;
    forall q | q in t.toClient ensures FromSent(t.client, q) {
      if q !in s.toClient {
        var p :| p in s.toServer && q == Echoed(p, q.recvTs);
        assert q.(recvTs := 0) == p.(recvTs := 0);
      }
    }
  }

  lemma OutsideKeepsStamps(s: State, e: Event)
    requires StampsInv(s) && Outside(s, e).Some?
    ensures StampsInv(Outside(s, e).value)
  {
    OutsideInventsNothing(s, e);
  }

  lemma DoKeepsInv(s: State, e: Event)
    requires Inv(s) && Do(s, e).Some?
    ensures Inv(Do(s, e).value) && SameSetup(s.client, Do(s, e).value.client)
  {
    match e
    case Task(a) => TaskKeepsInv(s, a);
    case SendDatagram => SendKeepsInv(s);
    case ReceiveDatagram(p) => ReceiveDatagramKeepsInv(s, p);
    case _ => OutsideKeepsInv(s, e);
  }

  lemma {:induction false} RunKeepsInv(s: State, es: seq<Event>)
    requires Inv(s) && StampsInv(s) && Run(s, es).Some?
    ensures Inv(Run(s, es).value) && StampsInv(Run(s, es).value)
    ensures SameSetup(s.client, Run(s, es).value.client)
  {
    if es != [] {
      RunKeepsInv(s, es[..|es| - 1]);
      DoKeepsStamps(Run(s, es[..|es| - 1]).value, es[|es| - 1]);
      DoKeepsInv(Run(s, es[..|es| - 1]).value, es[|es| - 1]);
    }
  }

  lemma DoKeepsTimely(s: State, e: Event)
    requires Timely(s.client) && Do(s, e).Some?
    ensures Timely(Do(s, e).value.client)
  {
    match e
    case Task(a) => LocalKeepsTimely(s.client, a);
    case SendDatagram => EmitKeepsTimely(s.client);
    case ReceiveDatagram(p) => ReceiveKeepsTimely(s.client, p);
    case _ =>
  }

  lemma {:induction false} RunKeepsTimely(s: State, es: seq<Event>)
    requires Timely(s.client) && Run(s, es).Some?
    ensures Timely(Run(s, es).value.client)
  {
    if es != [] {
      RunKeepsTimely(s, es[..|es| - 1]);
      DoKeepsTimely(Run(s, es[..|es| - 1]).value, es[|es| - 1]);
    }
  }

  lemma LoggedWasReceived(s: State)
    requires Inv(s) && StampsInv(s)
    ensures forall r :: r in s.client.logged ==> ResultFromSent(s.client, r) && (r.seqNo, r.serverTs) in s.stamps
  {
    var c := s.client;
    forall r | r in c.logged ensures ResultFromSent(c, r) && (r.seqNo, r.serverTs) in s.stamps {
      var i :| 0 <= i < |c.logged| && c.logged[i] == r;
      assert c.received[i] == r;
    }
  }

  /** In every run, over any network and whichever loop echoes: no time difference underflows,
      and every logged result carries the sequence number and the send time of the packet that
      was really sent under that number, a time stamp the server gave that packet, and the round
      trip measured from the send time. */
  lemma LoggedResultsAreGenuine(identifier: nat, len: nat, count: Option<nat>, now: nat, es: seq<Event>)
    requires Run(Init(identifier, len, count, now), es).Some?
    ensures var s := Run(Init(identifier, len, count, now), es).value;
            var c := s.client;
            && !c.underflowed
            && StampedInTime(c.sent, c.emittedAt) && ReceivedInTime(c.received, c.receivedAt)
            && c.logged <= c.received
            && (forall i :: 0 <= i < |c.sent| ==> c.sent[i] == Packet(identifier, c.sent[i].sendTs, 0, i, len))
            && (forall r :: r in c.logged ==>
                  && r.seqNo < |c.sent|
                  && r.sendTs == c.sent[r.seqNo].sendTs <= r.recvTs
                  && (r.seqNo, r.serverTs) in s.stamps
                  && r.rtt == (r.recvTs - r.sendTs) as real / 1000000.0)
  {
    var s0 := Init(identifier, len, count, now);
    NewClientInv(identifier, len, count, now);
    RunKeepsInv(s0, es);
    RunKeepsTimely(s0, es);
    LoggedWasReceived(Run(s0, es).value);
  }

  /** In every run the two statistics have been given the round trips of the logged results, one by one, and the
      whole milliseconds between their receive times, so the round-trip statistic has their mean and extremes. */
  lemma RoundTripOfRun(identifier: nat, len: nat, count: Option<nat>, now: nat, es: seq<Event>, s0: Stats)
    requires s0.samples == 0 && Run(Init(identifier, len, count, now), es).Some?
    ensures SamplesAgree(Run(Init(identifier, len, count, now), es).value.client)
    ensures var c := Run(Init(identifier, len, count, now), es).value.client;
            c.logged != [] ==> RoundTripAgrees(c, s0)
  {
    NewClientInv(identifier, len, count, now);
    RunKeepsInv(Init(identifier, len, count, now), es);
    var c := Run(Init(identifier, len, count, now), es).value.client;
    SamplesOfClient(c);
    if c.logged != [] {
      RoundTripOfClient(c, s0);
    }
  }

  /** In every run, once two results are logged, the inter-arrival statistic agrees with the
      receive times of the first and the last logged result up to a millisecond a gap. */
  lemma InterArrivalOfRun(identifier: nat, len: nat, count: Option<nat>, now: nat, es: seq<Event>, s0: Stats)
    requires s0.samples == 0
    requires Run(Init(identifier, len, count, now), es).Some?
    requires |Run(Init(identifier, len, count, now), es).value.client.logged| >= 2
    ensures InterArrivalAgrees(Run(Init(identifier, len, count, now), es).value.client, s0)
  {
    NewClientInv(identifier, len, count, now);
    RunKeepsInv(Init(identifier, len, count, now), es);
    InterArrivalOfClient(Run(Init(identifier, len, count, now), es).value.client, s0);
  }

  // ----- Conservation: on a network that does not duplicate -----

  predicate Duplicates(e: Event) {
    e.CopyRequest? || e.CopyReply?
  }

  /** Every packet sent is in exactly one place, and no two results share a number. */
  predicate Accounted(s: State) {
    && |s.client.sent| == s.lost + |s.toServer| + |s.toClient| + |s.client.received|
    && SinglyHeld(s.toServer)
    && SinglyHeld(s.toClient)
    && Apart(s.toServer, s.toClient)
    && NotReceived(s.toServer, s.client.received)
    && NotReceived(s.toClient, s.client.received)
    && Distinct(s.client.received)
  }

  predicate SinglyHeld(bag: multiset<Packet>) {
    && (forall p :: p in bag ==> bag[p] == 1)
    && (forall p, q :: p in bag && q in bag && p.seqNo == q.seqNo ==> p == q)
  }

  predicate Apart(a: multiset<Packet>, b: multiset<Packet>) {
    forall p, q :: p in a && q in b ==> p.seqNo != q.seqNo
  }

  predicate NotReceived(bag: multiset<Packet>, rs: seq<EchoResult>) {
    forall p, i :: p in bag && 0 <= i < |rs| ==> p.seqNo != rs[i].seqNo
  }

  predicate Distinct(rs: seq<EchoResult>) {
    forall i, j :: 0 <= i < j < |rs| ==> rs[i].seqNo != rs[j].seqNo
  }

  /** A packet with a number that is nowhere else joins the packets under way. */
  lemma JoinsApart(a: multiset<Packet>, b: multiset<Packet>, rs: seq<EchoResult>, p: Packet)
    requires SinglyHeld(a) && Apart(a, b) && Apart(b, a) && NotReceived(a, rs)
    requires forall q :: q in a || q in b ==> q.seqNo != p.seqNo
    requires forall i :: 0 <= i < |rs| ==> rs[i].seqNo != p.seqNo
    ensures var more := a + multiset{p};
            SinglyHeld(more) && |more| == |a| + 1 && Apart(more, b) && Apart(b, more) && NotReceived(more, rs)
  {
    AddOne(a, p);
  }

  lemma NewNumber(s: State, p: Packet)
    requires Inv(s) && p.seqNo == |s.client.sent|
    ensures forall q :: q in s.toServer || q in s.toClient ==> q.seqNo != p.seqNo
    ensures forall i :: 0 <= i < |s.client.received| ==> s.client.received[i].seqNo != p.seqNo
  {
    forall q | q in s.toServer || q in s.toClient ensures q.seqNo != p.seqNo {
      assert FromSent(s.client, q);
    }
  }

  lemma SendKeepsAccounts(s: State)
    requires Inv(s) && Accounted(s) && Do(s, SendDatagram).Some?
    ensures Accounted(Do(s, SendDatagram).value)
  {
    EmitKeepsInv(s.client);
    var p := Emit(s.client).value.1;
    NewNumber(s, p);
    JoinsApart(s.toServer, s.toClient, s.client.received, p);
  }

  lemma ServeKeepsAccounts(s: State, p: Packet, via: Loop, t: nat)
    requires Accounted(s) && Outside(s, ServeDatagram(p, via, t)).Some?
    ensures Accounted(Outside(s, ServeDatagram(p, via, t)).value)
  {
    MovesAcross(s.toServer, s.toClient, s.client.received, p, Echoed(p, t));
  }

  /** A packet leaves one bag and its echo joins the other. */
  lemma MovesAcross(a: multiset<Packet>, b: multiset<Packet>, rs: seq<EchoResult>, p: Packet, q: Packet)
    requires SinglyHeld(a) && SinglyHeld(b) && Apart(a, b) && NotReceived(a, rs) && NotReceived(b, rs)
    requires p in a && q.seqNo == p.seqNo
    ensures var less, more := a - multiset{p}, b + multiset{q};
            && SinglyHeld(less) && SinglyHeld(more) && Apart(less, more)
            && NotReceived(less, rs) && NotReceived(more, rs)
            && |less| == |a| - 1 && |more| == |b| + 1
  {
    TakeOne(a, p);
    JoinsApart(b, a - multiset{p}, rs, q);
  }

  lemma ReceiveKeepsAccounts(s: State, p: Packet)
    requires Inv(s) && Accounted(s) && Do(s, ReceiveDatagram(p)).Some?
    ensures Accounted(Do(s, ReceiveDatagram(p)).value)
  {
    ReceiveKeepsInv(s.client, p);
    var t := Do(s, ReceiveDatagram(p)).value;
    TakeOne(s.toClient, p);
    OneMoreReceived(s.client.received, t.client.received, s.toServer, p);
    OneMoreReceived(s.client.received, t.client.received, t.toClient, p);
  }

  lemma OneMoreReceived(rs: seq<EchoResult>, ss: seq<EchoResult>, bag: multiset<Packet>, p: Packet)
    requires |ss| == |rs| + 1 && ss[..|rs|] == rs && ss[|rs|].seqNo == p.seqNo
    requires NotReceived(bag, rs) && Distinct(rs)
    requires forall i :: 0 <= i < |rs| ==> rs[i].seqNo != p.seqNo
    requires forall q :: q in bag ==> q.seqNo != p.seqNo
    ensures NotReceived(bag, ss) && Distinct(ss)
  {
    assert forall i :: 0 <= i < |rs| ==> ss[i] == rs[i];
  }

  lemma LoseRequestKeepsAccounts(s: State, p: Packet)
    requires Accounted(s) && p in s.toServer
    ensures Accounted(Do(s, LoseRequest(p)).value)
  {
    TakeOne(s.toServer, p);
  }

  lemma LoseReplyKeepsAccounts(s: State, p: Packet)
    requires Accounted(s) && p in s.toClient
    ensures Accounted(Do(s, LoseReply(p)).value)
  {
    TakeOne(s.toClient, p);
  }

  /** Taking the only copy of a packet out of a bag leaves nothing with its number. */
  lemma TakeOne(bag: multiset<Packet>, p: Packet)
    requires SinglyHeld(bag) && p in bag
    ensures var rest := bag - multiset{p};
            && SinglyHeld(rest) && |rest| == |bag| - 1
            && (forall q :: q in rest ==> q in bag && q.seqNo != p.seqNo)
  {
    var rest := bag - multiset{p};
    assert rest[p] == 0;
  }

  lemma AddOne(bag: multiset<Packet>, p: Packet)
    requires SinglyHeld(bag) && forall q :: q in bag ==> q.seqNo != p.seqNo
    ensures var more := bag + multiset{p};
            && SinglyHeld(more) && |more| == |bag| + 1
            && (forall q :: q in more ==> q in bag || q == p)
  {
    assert bag[p] == 0;
  }

  lemma TaskKeepsAccounts(s: State, a: Action)
    requires Inv(s) && Accounted(s) && Do(s, Task(a)).Some?
    ensures Accounted(Do(s, Task(a)).value)
  {
    LocalKeepsInv(s.client, a);
  }

  lemma DoKeepsAccounts(s: State, e: Event)
    requires Inv(s) && Accounted(s) && Do(s, e).Some? && !Duplicates(e)
    ensures Accounted(Do(s, e).value)
  {
    match e
    case Task(a) => TaskKeepsAccounts(s, a);
    case SendDatagram => SendKeepsAccounts(s);
    case ServeDatagram(p, via, ts) => ServeKeepsAccounts(s, p, via, ts);
    case ReceiveDatagram(p) => ReceiveKeepsAccounts(s, p);
    case LoseRequest(p) => LoseRequestKeepsAccounts(s, p);
    case LoseReply(p) => LoseReplyKeepsAccounts(s, p);
    case _ =>
  }

  ghost predicate InAccount(s: State) {
    Inv(s) && Accounted(s)
  }

  lemma {:induction false} RunKeepsAccounts(s: State, es: seq<Event>)
    requires InAccount(s) && Run(s, es).Some?
    requires forall e :: e in es ==> !Duplicates(e)
    ensures InAccount(Run(s, es).value) && SameSetup(s.client, Run(s, es).value.client)
  {
    if es != [] {
      var init, e := es[..|es| - 1], es[|es| - 1];
      assert e in es && forall d :: d in init ==> d in es;
      RunKeepsAccounts(s, init);
      DoKeepsInv(Run(s, init).value, e);
      DoKeepsAccounts(Run(s, init).value, e);
    }
  }

  /** No reply is logged twice; the log never runs ahead of the send counter by more than the one send in
      progress; and when the send task has ended, it has sent exactly the numbers `0..n-1`, each of which is
      lost, in the network, waiting in the client, or counted, so the difference that the closing report shows
      is exactly what is missing. */
  predicate CountersMatch(s: State) {
    var c := s.client;
    && (forall i, j :: 0 <= i < j < |c.logged| ==> c.logged[i].seqNo != c.logged[j].seqNo)
    && c.recvCounter <= |c.logged| <= c.sendCounter + (if c.phase == Sent then 1 else 0)
    && (c.phase == Finished ==>
          && c.count == Some(c.sendCounter)
          && |c.sent| == c.sendCounter
          && (forall i :: 0 <= i < |c.sent| ==> c.sent[i].seqNo == i)
          && c.sendCounter - c.recvCounter
             == s.lost + |s.toServer| + |s.toClient| + |Held(c)| + |c.chan| + (if c.logging then 1 else 0))
  }

  lemma AccountsMatch(s: State)
    requires Inv(s) && Accounted(s)
    ensures CountersMatch(s)
  {
    var c := s.client;
    assert forall i :: 0 <= i < |c.logged| ==> c.logged[i] == c.received[i];
  }

  /** The counters agree in every run over a network that does not duplicate. */
  lemma CountersAgree(identifier: nat, len: nat, count: Option<nat>, now: nat, es: seq<Event>)
    requires Run(Init(identifier, len, count, now), es).Some?
    requires forall e :: e in es ==> !Duplicates(e)
    ensures CountersMatch(Run(Init(identifier, len, count, now), es).value)
    ensures Run(Init(identifier, len, count, now), es).value.client.count == count
  {
    NewClientInv(identifier, len, count, now);
    RunKeepsAccounts(Init(identifier, len, count, now), es);
    AccountsMatch(Run(Init(identifier, len, count, now), es).value);
  }

  // ----- What is not lost can be logged -----

  function Rank(s: State): int {
    SenderRank(s.client) + 6 * |s.toServer| + 4 * |s.toClient| + ReceiverRank(s.client)
  }

  /** The step that brings the test closer to its end, without a loss; a request is echoed by a client's own
      loop once there is one. */
  ghost function Next(s: State): Event {
    if ReceiverRank(s.client) > 0 then Task(NextOfReceiver(s.client))
    else if s.toClient != multiset{} then (var p :| p in s.toClient; ReceiveDatagram(p))
    else if s.toServer != multiset{} then
      (var p :| p in s.toServer; ServeDatagram(p, if s.handlers > 0 then ClientLoop else MainLoop, 0))
    else if s.client.phase.Stamped? then SendDatagram
    else Task(NextOfSender(s.client))
  }

  /** The send task has ended and nothing is under way. */
  predicate Over(s: State) {
    && s.client.phase == Finished && s.toServer == multiset{} && s.toClient == multiset{}
    && ReceiverRank(s.client) == 0
  }

  lemma OneFewer(bag: multiset<Packet>, p: Packet)
    requires p in bag
    ensures |bag - multiset{p}| == |bag| - 1
  {
  }

  lemma NextReplyGetsCloser(s: State, p: Packet)
    requires ClientInv(s.client) && FromSent(s.client, p) && ReceiverRank(s.client) == 0 && p in s.toClient
    ensures Do(s, ReceiveDatagram(p)).Some?
    ensures var t := Do(s, ReceiveDatagram(p)).value;
            Rank(t) < Rank(s) && SameSetup(s.client, t.client) && t.lost == s.lost
  {
    ReceiverTakes(s.client, p);
    OneFewer(s.toClient, p);
  }

  lemma NextEchoGetsCloser(s: State, p: Packet)
    requires p in s.toServer
    ensures var e := ServeDatagram(p, if s.handlers > 0 then ClientLoop else MainLoop, 0);
            && Do(s, e).Some? && Rank(Do(s, e).value) < Rank(s)
            && Do(s, e).value.client == s.client && Do(s, e).value.lost == s.lost
  {
  }

  lemma NextOutsideGetsCloser(s: State)
    requires Inv(s) && ReceiverRank(s.client) == 0 && (s.toClient != multiset{} || s.toServer != multiset{})
    ensures Do(s, Next(s)).Some? && !Duplicates(Next(s))
    ensures var t := Do(s, Next(s)).value; Rank(t) < Rank(s) && SameSetup(s.client, t.client) && t.lost == s.lost
  {
    if s.toClient != multiset{} {
      NextReplyGetsCloser(s, Next(s).p);
    } else {
      NextEchoGetsCloser(s, Next(s).p);
    }
  }

  lemma NextOfClientGetsCloser(s: State)
    requires ClientInv(s.client) && s.client.count.Some? && !Over(s)
    requires ReceiverRank(s.client) > 0 || (s.toClient == multiset{} && s.toServer == multiset{})
    ensures Do(s, Next(s)).Some? && !Duplicates(Next(s))
    ensures var t := Do(s, Next(s)).value; Rank(t) < Rank(s) && SameSetup(s.client, t.client) && t.lost == s.lost
  {
    if ReceiverRank(s.client) > 0 {
      ReceiverGetsOn(s.client);
    } else if s.client.phase.Stamped? {
      SenderEmits(s.client);
    } else {
      SenderGetsOn(s.client);
    }
  }

  lemma NextGetsCloser(s: State)
    requires Inv(s) && s.client.count.Some? && !Over(s)
    ensures Do(s, Next(s)).Some? && !Duplicates(Next(s))
    ensures var t := Do(s, Next(s)).value; Rank(t) < Rank(s) && SameSetup(s.client, t.client) && t.lost == s.lost
  {
    if ReceiverRank(s.client) == 0 && (s.toClient != multiset{} || s.toServer != multiset{}) {
      NextOutsideGetsCloser(s);
    } else {
      NextOfClientGetsCloser(s);
    }
  }

  lemma OneStepCloser(s: State) returns (t: State)
    requires Inv(s) && s.client.count.Some? && !Over(s)
    ensures Do(s, Next(s)) == Some(t) && Inv(t) && 0 <= Rank(t) < Rank(s) && !Duplicates(Next(s))
    ensures SameSetup(s.client, t.client) && t.lost == s.lost
  {
    NextGetsCloser(s);
    t := Do(s, Next(s)).value;
    DoKeepsInv(s, Next(s));
    SenderIsNotDone(t.client);
  }

  lemma RunExtends(s0: State, es: seq<Event>, s: State, e: Event)
    requires Run(s0, es) == Some(s)
    ensures Run(s0, es + [e]) == Do(s, e)
  {
    assert (es + [e])[..|es|] == es;
  }

  lemma {:induction false} Finish(s0: State, es: seq<Event>, s: State) returns (all: seq<Event>, t: State)
    requires Run(s0, es) == Some(s) && Inv(s) && s.client.count.Some?
    ensures es <= all && Run(s0, all) == Some(t) && Inv(t) && Over(t)
    ensures SameSetup(s.client, t.client) && t.lost == s.lost
    decreases Rank(s)
  {
    all, t := es, s;
    if !Over(s) {
      var u := OneStepCloser(s);
      RunExtends(s0, es, s, Next(s));
      all, t := Finish(s0, es + [Next(s)], u);
    }
  }

  /** The send task has ended after `n` packets, nothing is under way, and every result is logged and
      counted. */
  predicate AllCounted(s: State, n: nat) {
    && Over(s) && |s.client.sent| == s.client.sendCounter == n
    && s.client.recvCounter == |s.client.logged| && s.client.logged == s.client.received
  }

  /** From every state of every run with a configured count, over any network, the test can still come to its
      end without a further loss, with every reply that was under way logged. */
  lemma CanFinish(identifier: nat, len: nat, count: Option<nat>, now: nat, es: seq<Event>)
    requires count.Some? && Run(Init(identifier, len, count, now), es).Some?
    ensures exists all :: es <= all && Run(Init(identifier, len, count, now), all).Some?
                          && AllCounted(Run(Init(identifier, len, count, now), all).value, count.value)
                          && Run(Init(identifier, len, count, now), all).value.lost
                             == Run(Init(identifier, len, count, now), es).value.lost
  {
    NewClientInv(identifier, len, count, now);
    var s0 := Init(identifier, len, count, now);
    RunKeepsInv(s0, es);
    var all, t := Finish(s0, es, Run(s0, es).value);
    assert AllCounted(t, count.value);
  }

  // ----- The echo loops -----

  /** What a step does to the number of per-client loops: one more for a packet that the main loop echoed,
      one less for a loop that has timed out. */
  function Spawns(e: Event): int {
    if e.ServeDatagram? && e.via == MainLoop then 1 else if e.HandlerTimeout? then -1 else 0
  }

  function Spawned(es: seq<Event>): int {
    if es == [] then 0 else Spawned(es[..|es| - 1]) + Spawns(es[|es| - 1])
  }

  lemma DoSpawns(s: State, e: Event)
    requires Do(s, e).Some?
    ensures Do(s, e).value.handlers == s.handlers + Spawns(e)
  {
  }

  lemma {:induction false} HandlersAreSpawned(s: State, es: seq<Event>)
    requires Run(s, es).Some?
    ensures Run(s, es).value.handlers == s.handlers + Spawned(es)
  {
    if es != [] {
      HandlersAreSpawned(s, es[..|es| - 1]);
      DoSpawns(Run(s, es[..|es| - 1]).value, es[|es| - 1]);
    }
  }
}

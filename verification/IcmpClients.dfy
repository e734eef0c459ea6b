/** Two ICMP ping clients on one host: the raw sockets hand every echo reply to both, and only
    the identifier, drawn at random, tells them apart (`ping/src/icmp.rs`). */
module IcmpClients {
  import opened Prelude
  import opened IcmpWire
  import opened IcmpPing

  datatype Side = A | B

  /** A ping is named by its sender and its counter. */
  datatype PingName = PingName(side: Side, counter: nat)

  /** `sendTs[k]` is the stamp of ping `k`, which went out at `sentAt[k]`; `origins` and `readAt` record, for each
      logged result, the ping whose reply it was decoded from, and when that was read. */
  datatype Pinger = Pinger(identifier: nat, payload: seq<byte>, sendTs: seq<nat>, sentAt: seq<nat>,
                           logged: seq<PingResult>, origins: seq<PingName>, readAt: seq<nat>, failed: bool)

  datatype State = State(a: Pinger, b: Pinger, now: nat, replies: set<PingName>) {
    function Get(s: Side): Pinger {
      if s == A then a else b
    }

    function Put(s: Side, p: Pinger): State {
      if s == A then this.(a := p) else this.(b := p)
    }
  }

  /** `Deliver` reads one reply from one client's socket; replies stay readable, as each socket
      has its own copy and the network may repeat them. */
  datatype Event =
    | Advance(t: nat)
    | SendPing(side: Side)
    | Answered(ping: PingName)
    | Deliver(to: Side, ping: PingName, ip: seq<byte>)

  predicate CanFill(p: Pinger) {
    |p.payload| >= 32 && p.identifier < U16
  }

  function NewPinger(identifier: nat, payload: seq<byte>): Pinger {
    Pinger(identifier, payload, [], [], [], [], [], false)
  }

  predicate Known(s: State, n: PingName) {
    n.counter < |s.Get(n.side).sendTs|
  }

  function Do(s: State, e: Event): Option<State>
    requires CanFill(s.a) && CanFill(s.b)
  {
    match e
    case Advance(t) =>
      if t < s.now || t >= U128 then None else Some(s.(now := t))
    case SendPing(side) =>
      var p := s.Get(side);
      if |p.sendTs| >= U128 then None
      else Some(s.Put(side, p.(sendTs := p.sendTs + [s.now], sentAt := p.sentAt + [s.now])))
    case Answered(n) =>
      if !Known(s, n) then None else Some(s.(replies := s.replies + {n}))
    case Deliver(to, n, ip) =>
      if n !in s.replies || !Known(s, n) || |ip| != 20 || s.Get(to).failed then None
      else
        var p, sender := s.Get(to), s.Get(n.side);
        var reply := Answer(ip, sender.identifier, sender.payload, sender.sendTs[n.counter], n.counter);
        var o := ReceiveOne(p.identifier, reply, s.now);
        Some(s.Put(to, if Ends(o) then p.(failed := true)
                       else if o.Logged? then p.(logged := p.logged + [o.result], origins := p.origins + [n],
                                            readAt := p.readAt + [s.now])
                       else p))
  }

  function Run(s: State, es: seq<Event>): Option<State>
    requires CanFill(s.a) && CanFill(s.b)
    ensures Run(s, es).Some? ==>
              var t := Run(s, es).value;
              && t.a.identifier == s.a.identifier && t.a.payload == s.a.payload
              && t.b.identifier == s.b.identifier && t.b.payload == s.b.payload
  {
    if es == [] then Some(s)
    else
      var r := Run(s, es[..|es| - 1]);
      if r.None? then None else Do(r.value, es[|es| - 1])
  }

  /** The result is what the client wrote into ping `n`, with the milliseconds from when that went out until
      its reply was read. */
  predicate Decoded(p: Pinger, n: PingName, r: PingResult, readAt: nat) {
    && n.counter < |p.sendTs| == |p.sentAt|
    && r.uniqueSeq == n.counter && r.seqNo == n.counter % 65536 && r.sendTs == p.sendTs[n.counter]
    && r.rtt == (readAt - p.sentAt[n.counter]) as real / 1000000.0
  }

  /** Client `side` has logged results of its own pings only, correctly decoded. */
  predicate OwnOnly(s: State, side: Side) {
    var p := s.Get(side);
    && !p.failed
    && |p.logged| == |p.origins| == |p.readAt|
    && forall i :: 0 <= i < |p.logged| ==>
         p.origins[i].side == side && Decoded(p, p.origins[i], p.logged[i], p.readAt[i])
  }

  predicate StampsInv(s: State, p: Pinger) {
    && CanFill(p)
    && p.sendTs == p.sentAt && |p.sendTs| <= U128
    && forall k :: 0 <= k < |p.sendTs| ==> p.sendTs[k] <= s.now
  }

  predicate Inv(s: State) {
    && s.now < U128
    && StampsInv(s, s.a) && StampsInv(s, s.b)
    && OwnOnly(s, A) && OwnOnly(s, B)
  }

  lemma DeliverKeepsInv(s: State, to: Side, n: PingName, ip: seq<byte>)
    requires Inv(s) && s.a.identifier != s.b.identifier
    requires Do(s, Deliver(to, n, ip)).Some?
    ensures Inv(Do(s, Deliver(to, n, ip)).value)
  {
    var p, sender := s.Get(to), s.Get(n.side);
    PingRoundTrip(ip, sender.identifier, p.identifier, sender.payload, sender.sendTs[n.counter], n.counter, s.now);
    assert n.side != to ==> p.identifier != sender.identifier;
  }

  lemma {:induction false} RunKeepsInv(s: State, es: seq<Event>)
    requires Inv(s) && s.a.identifier != s.b.identifier && Run(s, es).Some?
    ensures Inv(Run(s, es).value)
  {
    if es != [] {
      RunKeepsInv(s, es[..|es| - 1]);
      var t, e := Run(s, es[..|es| - 1]).value, es[|es| - 1];
      match e {
        case Deliver(to, n, ip) => DeliverKeepsInv(t, to, n, ip);
        case _ =>
      }
    }
  }

  function Init(a: Pinger, b: Pinger): State {
    State(a, b, 0, {})
  }

  /** Two clients with the same identifier: a reply to one is logged by the other, which has
      not sent anything. */
  lemma SharedIdentifierMixes(identifier: nat, x: seq<byte>, y: seq<byte>)
    requires identifier < U16 && |x| >= 32 && |y| >= 32
    ensures var s := Init(NewPinger(identifier, x), NewPinger(identifier, y));
            exists es :: Run(s, es).Some? && !OwnOnly(Run(s, es).value, A)
  {
    var s := Init(NewPinger(identifier, x), NewPinger(identifier, y));
    var n, ip := PingName(B, 0), seq(20, i => 0 as byte);
    var s1, s2 := RepliedTo(s);
    RunExtends(s, [], s, SendPing(B), s1);
    RunExtends(s, [] + [SendPing(B)], s1, Answered(n), s2);
    var s3 := MixedUp(s2, ip);
    RunExtends(s, [] + [SendPing(B)] + [Answered(n)], s2, Deliver(A, n, ip), s3);
  }

  lemma RepliedTo(s: State) returns (s1: State, s2: State)
    requires CanFill(s.a) && CanFill(s.b) && s.now == 0 && s.b.sendTs == [] == s.b.sentAt && s.replies == {}
    ensures Do(s, SendPing(B)) == Some(s1) && s1 == s.(b := s.b.(sendTs := [0], sentAt := [0]))
    ensures Do(s1, Answered(PingName(B, 0))) == Some(s2) && s2 == s1.(replies := {PingName(B, 0)})
  {
    assert s.b.sendTs + [s.now] == [0] && s.b.sentAt + [s.now] == [0];
    s1 := Do(s, SendPing(B)).value;
    assert s1.replies + {PingName(B, 0)} == {PingName(B, 0)};
    s2 := Do(s1, Answered(PingName(B, 0))).value;
  }

  lemma RunExtends(s: State, es: seq<Event>, t: State, e: Event, u: State)
    requires CanFill(s.a) && CanFill(s.b) && CanFill(t.a) && CanFill(t.b)
    requires Run(s, es) == Some(t) && Do(t, e) == Some(u)
    ensures Run(s, es + [e]) == Some(u)
  {
    assert (es + [e])[..|es|] == es;
  }

  lemma MixedUp(s: State, ip: seq<byte>) returns (t: State)
    requires CanFill(s.a) && CanFill(s.b) && s.a.identifier == s.b.identifier && |ip| == 20
    requires s.now == 0 && s.b.sendTs == [0] && PingName(B, 0) in s.replies
    requires !s.a.failed && s.a.logged == [] && s.a.origins == []
    ensures Do(s, Deliver(A, PingName(B, 0), ip)) == Some(t)
    ensures !OwnOnly(t, A)
  {
    PingRoundTrip(ip, s.b.identifier, s.a.identifier, s.b.payload, 0, 0, 0);
    t := LogsForeign(s, ip);
    assert t.Get(A).origins[0].side != A;
  }

  lemma LogsForeign(s: State, ip: seq<byte>) returns (t: State)
    requires CanFill(s.a) && CanFill(s.b) && |ip| == 20 && PingName(B, 0) in s.replies && s.b.sendTs == [0]
    requires !s.a.failed && s.a.logged == [] && s.a.origins == []
    requires ReceiveOne(s.a.identifier, Answer(ip, s.b.identifier, s.b.payload, 0, 0), s.now).Logged?
    ensures Do(s, Deliver(A, PingName(B, 0), ip)) == Some(t)
    ensures |t.a.logged| == 1 && t.a.origins == [PingName(B, 0)]
  {
    assert s.Get(B).sendTs[0] == 0;
    t := LogsReply(s, ip, ReceiveOne(s.a.identifier, Answer(ip, s.b.identifier, s.b.payload, 0, 0), s.now).result);
  }

  lemma LogsReply(s: State, ip: seq<byte>, r: PingResult) returns (t: State)
    requires CanFill(s.a) && CanFill(s.b) && |ip| == 20 && PingName(B, 0) in s.replies && |s.b.sendTs| == 1
    requires !s.a.failed
    requires ReceiveOne(s.a.identifier, Answer(ip, s.b.identifier, s.b.payload, s.b.sendTs[0], 0), s.now) == Logged(r)
    ensures Do(s, Deliver(A, PingName(B, 0), ip)) == Some(t)
    ensures t.a.logged == s.a.logged + [r] && t.a.origins == s.a.origins + [PingName(B, 0)]
  {
    t := Do(s, Deliver(A, PingName(B, 0), ip)).value;
  }

  /** Each of two clients that see all replies logs only its own pings, in every interleaving,
      exactly when their identifiers differ. */
  lemma ClientsSeparateIff(idA: nat, idB: nat, x: seq<byte>, y: seq<byte>)
    requires idA < U16 && idB < U16 && |x| >= 32 && |y| >= 32
    ensures var s := Init(NewPinger(idA, x), NewPinger(idB, y));
            (forall es :: Run(s, es).Some? ==> OwnOnly(Run(s, es).value, A) && OwnOnly(Run(s, es).value, B))
            <==> idA != idB
  {
    var s := Init(NewPinger(idA, x), NewPinger(idB, y));
    if idA != idB {
      forall es | Run(s, es).Some? ensures OwnOnly(Run(s, es).value, A) && OwnOnly(Run(s, es).value, B) {
        RunKeepsInv(s, es);
      }
    } else {
      SharedIdentifierMixes(idA, x, y);
    }
  }
}

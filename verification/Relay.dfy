/** The relay between a test runner and its socket (`latency/src/conn_types.rs`): `ConnCtx`
    holds the application ends of a broadcast channel (towards the network) and of a bounded
    mpsc channel (from it); the `ConnRunner` task moves messages between them and the socket. */
module Relay {
  import opened Prelude

  type Addr = nat

  datatype Config = Config(proto: Protocol, len: Option<nat>, interval: Option<nat>)

  datatype Protocol = Tcp | Udp(dst: Addr) | Quic

  /** `protocol::MessageType`; an `Error` carries nothing that is looked at. */
  datatype Message = NewTest(id: nat, cfg: Config) | Handshake(id: nat) | Error

  /** What travels over UDP: a serialised message, or `len` zero bytes of test data. */
  datatype Payload = Encoded(m: Message) | Data(len: nat)

  datatype Datagram = Datagram(src: Addr, dst: Addr, payload: Payload)

  const MPSC_SIZE := 10

  /** The most data a UDP datagram over IPv4 can carry. */
  const MAX_DATAGRAM := 65507

  predicate Fits(x: Payload) {
    x.Data? ==> x.len <= MAX_DATAGRAM
  }

  /** Where the `ConnRunner` task stands. `Deaf` is its `select!` after the broadcast branch was
      disabled by a value that is not `Ok`: it then waits for the socket only. `Pushing` waits
      for room in the mpsc channel. */
  datatype Task = Selecting | Deaf | Pushing(p: Payload) | Dead(why: End)

  /** `Stopped` is the regular end of the loop, the others are panics; `SendError` is that of a message no
      datagram can hold. */
  datatype End = PeerUnset | SendError | WrongAddress | ReceiverGone | Stopped

  /** One connection. `cap` is the capacity of the broadcast channel, `open` says that the runner
      still holds its `ConnCtx`. `unread` are the messages the relay has not read from the
      broadcast channel, `lagged` that some were overwritten since its last read; `inbox` is the
      mpsc channel. `given`, `skipped`, `emitted`, `accepted` with its `senders`, and `returned` are histories. */
  datatype Link = Link(
    cap: nat, open: bool, unread: seq<Payload>, lagged: bool, task: Task, inbox: seq<Payload>,
    local: Addr, peer: Option<Addr>,
    given: seq<Payload>, skipped: nat, emitted: seq<Payload>,
    accepted: seq<Payload>, senders: seq<Addr>, returned: seq<Payload>)

  function NewLink(cap: nat, local: Addr, peer: Option<Addr>): Link {
    Link(cap, true, [], false, Selecting, [], local, peer, [], 0, [], [], [], [])
  }

  /** `ConnCtx::send`: `None` is the error of a broadcast without receivers. A full channel
      drops its oldest message and the receiver will see that it lagged. */
  function CtxSend(l: Link, p: Payload): Option<Link> {
    if l.task.Dead? then None
    else if |l.unread| < l.cap then
      Some(l.(unread := l.unread + [p], given := l.given + [p]))
    else
      Some(l.(unread := (l.unread + [p])[1..], lagged := true, skipped := l.skipped + 1, given := l.given + [p]))
  }

  /** `ConnCtx::recv`, when a message is there. */
  function CtxRecv(l: Link): (Link, Payload)
    requires l.inbox != []
  {
    (l.(inbox := l.inbox[1..], returned := l.returned + [l.inbox[0]]), l.inbox[0])
  }

  /** The runner drops its `ConnCtx`. */
  function Close(l: Link): Link {
    l.(open := false)
  }

  /** The relay polls the broadcast branch of its `select!`. A lag, and the end of a closed
      channel, disable the branch; a message is sent to the peer. */
  function PollBroadcast(l: Link): Option<(Link, Option<Datagram>)> {
    if l.task != Selecting then None
    else if l.lagged then Some((l.(task := Deaf, lagged := false), None))
    else if l.unread != [] then
      if l.peer.None? then Some((l.(task := Dead(PeerUnset)), None))
      else if !Fits(l.unread[0]) then Some((l.(task := Dead(SendError)), None))
      else Some((l.(unread := l.unread[1..], emitted := l.emitted + [l.unread[0]]),
                 Some(Datagram(l.local, l.peer.value, l.unread[0]))))
    else if !l.open then Some((l.(task := Deaf), None))
    else None
  }

  /** The relay's socket branch: `UdpLatency::recv` fixes the peer at the first datagram and
      refuses any other sender, which the relay's `unwrap` turns into its end. */
  function PollSocket(l: Link, d: Datagram): Option<Link> {
    if l.task != Selecting && l.task != Deaf then None
    else if l.peer.Some? && d.src != l.peer.value then Some(l.(task := Dead(WrongAddress)))
    else Some(l.(peer := Some(d.src), task := Pushing(d.payload),
                 accepted := l.accepted + [d.payload], senders := l.senders + [d.src]))
  }

  /** The stop branch: dropping the `ConnCtx` drops the sender of the stop channel, which ends
      the wait for it. */
  function PollStop(l: Link): Option<Link> {
    if (l.task == Selecting || l.task == Deaf) && !l.open then Some(l.(task := Dead(Stopped))) else None
  }

  /** The relay's push into the mpsc channel, when it can proceed. */
  function Push(l: Link): Option<Link> {
    if !l.task.Pushing? then None
    else if !l.open then Some(l.(task := Dead(ReceiverGone)))
    else if |l.inbox| >= MPSC_SIZE then None
    else Some(l.(task := Selecting, inbox := l.inbox + [l.task.p]))
  }

  /** The branch of the relay's `select!`, or its pending push, that the scheduler tries. */
  datatype Wakeup = Channel | Arrival(d: Datagram) | Room | StopSignal {
    function AsOp(): Op {
      match this
      case Channel => Broadcast
      case Arrival(d) => Socket(d)
      case Room => Forward
      case StopSignal => Halt
    }
  }

  /** One turn of the relay task, with the datagram it sends. */
  function Woken(l: Link, w: Wakeup): Option<(Link, Option<Datagram>)> {
    if w.Channel? then PollBroadcast(l)
    else
      var r := LinkStep(l, w.AsOp());
      if r.None? then None else Some((r.value, None))
  }

  // ----- Conservation, over every sequence of operations -----

  datatype Op = Give(p: Payload) | Take | Drop | Broadcast | Socket(d: Datagram) | Forward | Halt

  function LinkStep(l: Link, op: Op): Option<Link> {
    match op
    case Give(p) => if l.open then CtxSend(l, p) else None
    case Take => if l.open && l.inbox != [] then Some(CtxRecv(l).0) else None
    case Drop => Some(Close(l))
    case Broadcast => (var r := PollBroadcast(l); if r.None? then None else Some(r.value.0))
    case Socket(d) => PollSocket(l, d)
    case Forward => Push(l)
    case Halt => PollStop(l)
  }

  function LinkRun(l: Link, ops: seq<Op>): Option<Link> {
    if ops == [] then Some(l)
    else
      var r := LinkRun(l, ops[..|ops| - 1]);
      if r.None? then None else LinkStep(r.value, ops[|ops| - 1])
  }

  /** `xs` in order inside `ys`. */
  predicate Subsequence(xs: seq<Payload>, ys: seq<Payload>) {
    if xs == [] then true
    else if ys == [] then false
    else if xs[|xs| - 1] == ys[|ys| - 1] && Subsequence(xs[..|xs| - 1], ys[..|ys| - 1]) then true
    else Subsequence(xs, ys[..|ys| - 1])
  }

  function InHand(l: Link): seq<Payload> {
    if l.task.Pushing? then [l.task.p] else []
  }

  /** Incoming: what came out of the socket is what the runner took, what waits in the channel
      and what the relay holds, in order; only the end of a closed connection loses the last. */
  predicate KeepsIncoming(l: Link) {
    && |l.inbox| <= MPSC_SIZE
    && l.returned + l.inbox <= l.accepted
    && (l.task != Dead(ReceiverGone) ==> l.accepted == l.returned + l.inbox + InHand(l))
    && (l.task == Dead(ReceiverGone) ==> !l.open)
  }

  /** Outgoing: the unread messages are the latest given ones, the emitted ones a subsequence of
      the older, and the difference is counted. */
  predicate KeepsOutgoing(l: Link) {
    && |l.unread| <= l.cap
    && |l.unread| <= |l.given|
    && var older := |l.given| - |l.unread|;
       l.given[older..] == l.unread && Subsequence(l.emitted, l.given[..older])
       && |l.emitted| + l.skipped == older
  }

  lemma SubsequenceSkips(xs: seq<Payload>, ys: seq<Payload>, y: Payload)
    requires Subsequence(xs, ys)
    ensures Subsequence(xs, ys + [y]) && Subsequence(xs + [y], ys + [y])
  {
    assert (ys + [y])[..|ys|] == ys && (xs + [y])[..|xs|] == xs;
  }

  /** Where the unread suffix begins after one more message, and after one fewer. */
  lemma SuffixGrows(given: seq<Payload>, unread: seq<Payload>, older: nat, p: Payload)
    requires older + |unread| == |given| && given[older..] == unread
    ensures (given + [p])[..older] == given[..older] && (given + [p])[older..] == unread + [p]
  {
  }

  lemma SuffixShrinks(given: seq<Payload>, unread: seq<Payload>, older: nat)
    requires older + |unread| == |given| && given[older..] == unread && unread != []
    ensures given[..older + 1] == given[..older] + [unread[0]] && given[older + 1..] == unread[1..]
  {
    assert given[older] == given[older..][0];
  }

  lemma GiveKeepsOutgoing(l: Link, p: Payload)
    requires KeepsOutgoing(l) && l.cap > 0 && CtxSend(l, p).Some?
    ensures KeepsOutgoing(CtxSend(l, p).value)
  {
    var m := CtxSend(l, p).value;
    var older := |l.given| - |l.unread|;
    SuffixGrows(l.given, l.unread, older, p);
    if |l.unread| >= l.cap {
      OverwriteKeepsOutgoing(l, m, p, older);
    }
  }

  lemma OverwriteKeepsOutgoing(l: Link, m: Link, p: Payload, older: nat)
    requires KeepsOutgoing(l) && older == |l.given| - |l.unread| && l.unread != []
    requires m.given == l.given + [p] && m.unread == (l.unread + [p])[1..]
    requires m.emitted == l.emitted && m.skipped == l.skipped + 1 && m.cap == l.cap && |m.unread| <= m.cap
    ensures KeepsOutgoing(m)
  {
    SuffixGrows(l.given, l.unread, older, p);
    SuffixShrinks(m.given, l.unread + [p], older);
    SubsequenceSkips(l.emitted, l.given[..older], l.unread[0]);
  }

  lemma BroadcastKeepsOutgoing(l: Link)
    requires KeepsOutgoing(l) && PollBroadcast(l).Some?
    ensures KeepsOutgoing(PollBroadcast(l).value.0)
  {
    var m := PollBroadcast(l).value.0;
    if m.emitted == l.emitted {
      SameOutgoing(l, m);
    } else {
      EmitKeepsOutgoing(l, m);
    }
  }

  lemma EmitKeepsOutgoing(l: Link, m: Link)
    requires KeepsOutgoing(l) && l.unread != []
    requires m.unread == l.unread[1..] && m.emitted == l.emitted + [l.unread[0]]
    requires m.given == l.given && m.skipped == l.skipped && m.cap == l.cap
    ensures KeepsOutgoing(m)
  {
    var older := |l.given| - |l.unread|;
    SuffixShrinks(l.given, l.unread, older);
    SubsequenceSkips(l.emitted, l.given[..older], l.unread[0]);
  }

  lemma SameOutgoing(l: Link, m: Link)
    requires KeepsOutgoing(l)
    requires m.unread == l.unread && m.emitted == l.emitted && m.given == l.given
    requires m.skipped == l.skipped && m.cap == l.cap
    ensures KeepsOutgoing(m)
  {
  }

  lemma StepKeepsOutgoing(l: Link, op: Op)
    requires KeepsOutgoing(l) && l.cap > 0 && LinkStep(l, op).Some?
    ensures KeepsOutgoing(LinkStep(l, op).value)
  {
    match op
    case Give(p) => GiveKeepsOutgoing(l, p);
    case Broadcast => BroadcastKeepsOutgoing(l);
    case _ => SameOutgoing(l, LinkStep(l, op).value);
  }

  lemma TakeKeepsIncoming(l: Link)
    requires KeepsIncoming(l) && l.inbox != []
    ensures KeepsIncoming(CtxRecv(l).0)
  {
    assert l.returned + [l.inbox[0]] + l.inbox[1..] == l.returned + l.inbox;
  }

  lemma ForwardKeepsIncoming(l: Link)
    requires KeepsIncoming(l) && Push(l).Some?
    ensures KeepsIncoming(Push(l).value)
  {
    assert l.returned + (l.inbox + [l.task.p]) == l.returned + l.inbox + [l.task.p];
  }

  lemma StepKeepsIncoming(l: Link, op: Op)
    requires KeepsIncoming(l) && LinkStep(l, op).Some?
    ensures KeepsIncoming(LinkStep(l, op).value)
  {
    match op
    case Take => TakeKeepsIncoming(l);
    case Forward => ForwardKeepsIncoming(l);
    case _ =>
  }

  lemma StepKeepsCap(l: Link, op: Op)
    requires LinkStep(l, op).Some?
    ensures LinkStep(l, op).value.cap == l.cap
  {
  }

  /** Over every sequence of operations on a fresh connection: the runner has received a prefix of
      the datagrams accepted from the socket, with no gap, and while the connection is open only
      what is queued or in hand is missing; the datagrams emitted are an in-order subsequence of
      the messages given, short of them by exactly the overwritten and the unread ones. */
  lemma RelayConserves(cap: nat, local: Addr, peer: Option<Addr>, ops: seq<Op>)
    requires cap > 0 && LinkRun(NewLink(cap, local, peer), ops).Some?
    ensures var l := LinkRun(NewLink(cap, local, peer), ops).value;
            && l.returned <= l.accepted
            && (l.open ==> l.accepted == l.returned + l.inbox + InHand(l))
            && |l.inbox| <= MPSC_SIZE
            && Subsequence(l.emitted, l.given)
            && |l.given| == |l.emitted| + |l.unread| + l.skipped
  {
    RunKeepsBoth(NewLink(cap, local, peer), ops);
    var l := LinkRun(NewLink(cap, local, peer), ops).value;
    var older := |l.given| - |l.unread|;
    assert l.given == l.given[..older] + l.unread;
    SubsequenceOfPrefix(l.emitted, l.given[..older], l.unread);
  }

  lemma {:induction false} RunKeepsBoth(l: Link, ops: seq<Op>)
    requires l.cap > 0 && KeepsIncoming(l) && KeepsOutgoing(l) && LinkRun(l, ops).Some?
    ensures var m := LinkRun(l, ops).value; m.cap == l.cap && KeepsIncoming(m) && KeepsOutgoing(m)
  {
    if ops != [] {
      RunKeepsBoth(l, ops[..|ops| - 1]);
      var m := LinkRun(l, ops[..|ops| - 1]).value;
      StepKeepsCap(m, ops[|ops| - 1]);
      StepKeepsIncoming(m, ops[|ops| - 1]);
      StepKeepsOutgoing(m, ops[|ops| - 1]);
    }
  }

  lemma {:induction false} SubsequenceOfPrefix(xs: seq<Payload>, ys: seq<Payload>, zs: seq<Payload>)
    requires Subsequence(xs, ys)
    ensures Subsequence(xs, ys + zs)
  {
    if zs == [] {
      assert ys + zs == ys;
    } else {
      var init, z := zs[..|zs| - 1], zs[|zs| - 1];
      SubsequenceOfPrefix(xs, ys, init);
      SubsequenceSkips(xs, ys + init, z);
      assert ys + zs == ys + init + [z];
    }
  }

  // ----- When a relay gets on -----

  /** Once the context is dropped, a relay that waits in its `select!`, deaf or not, can always end;
      before, it never does of itself. */
  lemma StopsOnceClosed(l: Link)
    requires l.task == Selecting || l.task == Deaf
    ensures PollStop(Close(l)) == Some(Close(l).(task := Dead(Stopped)))
    ensures l.open ==> PollStop(l).None?
  {
  }

  /** The channel towards the runner holds ten messages; the relay waits with the next one. */
  lemma PushesIntoRoom(l: Link)
    requires l.task.Pushing? && l.open
    ensures Push(l).Some? <==> |l.inbox| < 10
  {
  }

  /** A relay that waits in its `select!`, deaf or not, takes every datagram. */
  lemma SocketIsAlwaysPolled(l: Link, d: Datagram)
    ensures PollSocket(l, d).Some? <==> l.task == Selecting || l.task == Deaf
  {
  }

  /** An overflow makes the relay deaf for one turn and costs the overwritten messages. Unless it overflows
      again meanwhile, the next datagram from the peer brings it back, and it goes on with the oldest
      message that is left. */
  lemma RecoversFromLag(l: Link, d: Datagram)
    requires l.task == Selecting && l.lagged && l.open && l.unread != [] && Fits(l.unread[0])
    requires l.peer == Some(d.src) && |l.inbox| < 10
    ensures LinkRun(l, [Broadcast]).Some? && LinkRun(l, [Broadcast]).value.task == Deaf
    ensures LinkRun(l, [Broadcast, Broadcast]).None?
    ensures var r := LinkRun(l, [Broadcast, Socket(d), Forward, Broadcast]);
            && r.Some? && r.value.emitted == l.emitted + [l.unread[0]] && r.value.unread == l.unread[1..]
            && r.value.inbox == l.inbox + [d.payload] && r.value.task == Selecting
  {
    var b, s, f := Broadcast, Socket(d), Forward;
    assert [b][..0] == [] && [b, b][..1] == [b];
    assert [b, s][..1] == [b] && [b, s, f][..2] == [b, s] && [b, s, f, b][..3] == [b, s, f];
    var l1 := LinkStep(l, b).value;
    assert LinkRun(l, [b]) == Some(l1);
    var l2 := LinkStep(l1, s).value;
    assert LinkRun(l, [b, s]) == Some(l2);
    var l3 := LinkStep(l2, f).value;
    assert LinkRun(l, [b, s, f]) == Some(l3);
  }

  // ----- Peer lock-in -----

  /** Every datagram accepted so far came from the peer. */
  predicate FromPeer(l: Link) {
    && |l.senders| == |l.accepted|
    && forall i :: 0 <= i < |l.senders| ==> l.peer == Some(l.senders[i])
  }

  lemma StepKeepsPeer(l: Link, op: Op)
    requires LinkStep(l, op).Some? && FromPeer(l)
    ensures var m := LinkStep(l, op).value; FromPeer(m) && (l.peer.Some? ==> m.peer == l.peer)
  {
  }

  /** A relay ends over a wrong sender only when it is handed a datagram that is not from its peer. */
  lemma StepMeetsStranger(l: Link, op: Op)
    requires LinkStep(l, op).Some? && l.task != Dead(WrongAddress)
    ensures LinkStep(l, op).value.task == Dead(WrongAddress)
       <==> op.Socket? && l.peer.Some? && op.d.src != l.peer.value
  {
  }

  /** Some datagram handed to the relay did not come from `peer`. */
  ghost predicate Strangers(ops: seq<Op>, peer: Option<Addr>) {
    exists i :: 0 <= i < |ops| && ops[i].Socket? && peer != Some(ops[i].d.src)
  }

  lemma StrangersOfPrefix(ops: seq<Op>, peer: Option<Addr>)
    requires ops != []
    ensures var e := ops[|ops| - 1];
            Strangers(ops, peer) <==> Strangers(ops[..|ops| - 1], peer) || (e.Socket? && peer != Some(e.d.src))
  {
    var init, e := ops[..|ops| - 1], ops[|ops| - 1];
    if Strangers(init, peer) {
      var i :| 0 <= i < |init| && init[i].Socket? && peer != Some(init[i].d.src);
      assert ops[i] == init[i];
    }
    if Strangers(ops, peer) {
      var i :| 0 <= i < |ops| && ops[i].Socket? && peer != Some(ops[i].d.src);
      assert i < |init| ==> init[i] == ops[i];
    }
  }

  lemma {:induction false} NoSocketNoPeer(l: Link, ops: seq<Op>)
    requires LinkRun(l, ops).Some? && LinkRun(l, ops).value.peer.None?
    ensures l.peer.None? && (l.task != Dead(WrongAddress) ==> LinkRun(l, ops).value.task != Dead(WrongAddress))
    ensures forall i :: 0 <= i < |ops| ==> !ops[i].Socket?
  {
    if ops != [] {
      var init := ops[..|ops| - 1];
      StepLeavesNoPeer(LinkRun(l, init).value, ops[|ops| - 1]);
      NoSocketNoPeer(l, init);
      forall i | 0 <= i < |ops| ensures !ops[i].Socket? {
        assert i < |init| ==> ops[i] == init[i];
      }
    }
  }

  lemma StepLeavesNoPeer(l: Link, op: Op)
    requires LinkStep(l, op).Some? && LinkStep(l, op).value.peer.None?
    ensures l.peer.None? && !op.Socket?
    ensures LinkStep(l, op).value.task == Dead(WrongAddress) ==> l.task == Dead(WrongAddress)
  {
  }

  /** Over every sequence of operations the peer, once set, never changes, and every datagram
      the relay accepted, whatever ended it, came from that one peer; the relay ends over a wrong sender
      exactly when it is handed a datagram from anyone else. */
  lemma {:induction false} PeerLocksIn(l: Link, ops: seq<Op>)
    requires LinkRun(l, ops).Some? && FromPeer(l) && l.task != Dead(WrongAddress)
    ensures var m := LinkRun(l, ops).value;
            && (l.peer.Some? ==> m.peer == l.peer)
            && FromPeer(m)
            && (m.task == Dead(WrongAddress) <==> Strangers(ops, m.peer))
  {
    if ops != [] {
      var init, op := ops[..|ops| - 1], ops[|ops| - 1];
      PeerLocksIn(l, init);
      var before := LinkRun(l, init).value;
      StepKeepsPeer(before, op);
      StrangersOfPrefix(ops, LinkRun(l, ops).value.peer);
      if before.peer.None? {
        NoSocketNoPeer(l, init);
      } else if before.task != Dead(WrongAddress) {
        StepMeetsStranger(before, op);
      } else {
        DeadStays(before, op);
      }
    }
  }

  lemma DeadStays(l: Link, op: Op)
    requires l.task.Dead? && LinkStep(l, op).Some?
    ensures LinkStep(l, op).value.task == l.task && !op.Socket?
  {
  }
}

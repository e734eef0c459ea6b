/** One inductive invariant of the handshake, kept by every step of the two runners, the two relays, the
    control streams and the network. */
module HandshakeInvariant {
  import opened Prelude
  import opened Relay
  import opened Handshake

  // ----- The invariant -----

  /** What one direction of the data path can carry: handshakes of one client, test data of one
      length. */
  datatype Flow = Flow(hello: Option<nat>, data: Option<nat>)

  predicate Says(f: Flow, x: Payload) {
    match x
    case Encoded(m) => m.Handshake? && f.hello == Some(m.id)
    case Data(len) => f.data == Some(len)
  }

  /** The side has completed its handshake, even if `run` has failed since. */
  predicate BeenReady(n: Node) {
    n.phase == Ready || n.phase == Failed(ConfigPanic) || n.phase == Failed(SendFailed)
  }

  /** Data starts to flow from a side only when it is ready. */
  function Out(p: Params, s: State, side: Side): Flow {
    Flow(if side == Client then Some(p.id) else None,
         if BeenReady(s.Get(side)) && Starts(p.cfg) then p.cfg.len else None)
  }

  function AddrOf(p: Params, side: Side): Addr
    requires p.Valid()
  {
    if side == Client then p.clientAddr else p.ServerAddr()
  }

  /** What surrounds one side's connection: whether the side has failed, the two addresses, and
      what flows out and in. */
  datatype Wire = Wire(failed: bool, local: Addr, far: Addr, out: Flow, incoming: Flow)

  function WireOf(p: Params, s: State, side: Side): Wire
    requires p.Valid()
  {
    Wire(s.Get(side).phase.Failed?, AddrOf(p, side), AddrOf(p, Other(side)), Out(p, s, side), Out(p, s, Other(side)))
  }

  /** A relay ends once its runner has failed, or over data that fits no datagram. */
  predicate EndIsDue(why: End, w: Wire) {
    match why
    case ReceiverGone => w.failed
    case Stopped => w.failed
    case SendError => w.out.data.Some? && w.out.data.value > MAX_DATAGRAM
    case _ => false
  }

  /** A connection whose only possible peer is the far end. */
  predicate LinkInv(l: Link, w: Wire) {
    && l.local == w.local && (l.peer.Some? ==> l.peer == Some(w.far))
    && (l.open <==> !w.failed)
    && (l.task.Dead? ==> EndIsDue(l.task.why, w))
    && (l.inbox != [] || l.task.Pushing? || l.unread != [] ==> l.peer.Some?)
    && |l.inbox| <= MPSC_SIZE
    && (forall i :: 0 <= i < |l.unread| ==> Says(w.out, l.unread[i]))
    && (forall i :: 0 <= i < |l.inbox| ==> Says(w.incoming, l.inbox[i]))
    && (l.task.Pushing? ==> Says(w.incoming, l.task.p))
  }

  /** A side in its loop or past it has a connection; only the client can fail before. */
  predicate Linked(side: Side, n: Node) {
    match n.phase
    case Begin => false
    case Exchanged => false
    case InLoop => true
    case Ready => true
    case Failed(why) => side == Server || why != StreamClosed
  }

  predicate SideInv(p: Params, s: State, side: Side)
    requires p.Valid()
  {
    var n := s.Get(side);
    && (n.ctx.Some? <==> Linked(side, n))
    && (n.ctx.Some? ==>
          && LinkInv(n.ctx.value, WireOf(p, s, side))
          && n.ctx.value.cap == p.cap
          && (side == Client || BeenReady(n) ==> n.ctx.value.peer.Some?)
          && (side == Server && n.ctx.value.peer.Some? ==> s.client.ctx.Some?))
  }

  predicate DatagramInv(p: Params, s: State, d: Datagram)
    requires p.Valid()
  {
    var side := if d.src == p.clientAddr then Client else Server;
    && d.src == AddrOf(p, side) && d.dst == AddrOf(p, Other(side))
    && s.Get(side).ctx.Some? && Says(Out(p, s, side), d.payload)
  }

  predicate NetInv(p: Params, s: State)
    requires p.Valid()
  {
    forall d :: d in s.net ==> DatagramInv(p, s, d)
  }

  /** Why a side can have failed. */
  predicate FailsBecause(p: Params, s: State, side: Side, why: Error) {
    match why
    case Timeout => true
    case StreamClosed => Other(side) in s.gone && s.Get(Other(side)).phase == Failed(Timeout)
    case ConfigPanic => !Starts(p.cfg)
    case SendFailed => Starts(p.cfg) && !Usable(p.cfg)
    case _ => false
  }

  predicate FailureInv(p: Params, s: State, side: Side) {
    && (s.Get(side).phase.Failed? ==> FailsBecause(p, s, side, s.Get(side).phase.why))
    && (side in s.gone ==> s.Get(side).phase.Failed?)
  }

  /** The client has `ms` to read, unless the streams closed before it did. */
  predicate Unread(s: State, ms: seq<Message>) {
    s.s2c == ms || (s.s2c == [] && Server in s.gone)
  }

  /** Phases against the control streams. */
  predicate ControlInv(p: Params, s: State) {
    var test, hello := NewTest(p.id, p.cfg), Message.Handshake(p.id);
    var begun, answered := s.server.phase != Begin, BeenReady(s.server);
    && s.client.id == Some(p.id) && s.client.testCfg == Some(p.cfg)
    && s.server.testCfg == (if begun then Some(p.cfg) else None)
    && s.answers == (if !begun then [] else if answered then [test, hello] else [test])
    && s.c2s == (if s.client.phase == Exchanged && !begun then [test] else [])
    && match s.client.phase {
         case Begin => !begun && s.s2c == []
         case Exchanged => !answered && if begun then Unread(s, [test]) else s.s2c == []
         case InLoop => begun && Unread(s, if answered then [hello] else [])
         case Ready => answered && s.s2c == []
         case Failed(why) =>
           if BeenReady(s.client) then answered && s.s2c == []
           else if s.client.ctx.Some? then begun && Unread(s, if answered then [hello] else [])
           else begun && !answered && s.s2c == []
       }
  }

  predicate Inv(p: Params, s: State)
    requires p.Valid()
  {
    && ControlInv(p, s) && FailureInv(p, s, Client) && FailureInv(p, s, Server)
    && SideInv(p, s, Client) && SideInv(p, s, Server) && NetInv(p, s)
  }

  // ----- Operations on one connection -----

  /** Giving to the relay fails only after it met data that fits no datagram. */
  lemma GiveKeepsLink(l: Link, x: Payload, w: Wire)
    requires LinkInv(l, w) && Says(w.out, x) && l.peer.Some? && !w.failed
    ensures CtxSend(l, x).None? ==> w.out.data.Some? && w.out.data.value > MAX_DATAGRAM
    ensures CtxSend(l, x).Some? ==> var m := CtxSend(l, x).value; LinkInv(m, w) && m.peer == l.peer && m.cap == l.cap
  {
  }

  lemma TakeKeepsLink(l: Link, w: Wire)
    requires LinkInv(l, w) && l.inbox != []
    ensures var (m, x) := CtxRecv(l);
            LinkInv(m, w) && Says(w.incoming, x) && m.peer == l.peer == Some(w.far) && m.cap == l.cap
  {
  }

  /** No message meets an unset peer. */
  lemma OutKeepsLink(l: Link, w: Wire)
    requires LinkInv(l, w) && PollBroadcast(l).Some?
    ensures var (m, d) := PollBroadcast(l).value;
            && LinkInv(m, w) && m.peer == l.peer && m.cap == l.cap
            && (d.Some? ==> d.value == Datagram(w.local, w.far, d.value.payload) && Says(w.out, d.value.payload))
  {
  }

  lemma InKeepsLink(l: Link, d: Datagram, w: Wire)
    requires LinkInv(l, w) && PollSocket(l, d).Some?
    requires d.src == w.far && Says(w.incoming, d.payload)
    ensures var m := PollSocket(l, d).value; LinkInv(m, w) && m.peer == Some(w.far) && m.cap == l.cap
  {
  }

  lemma PushKeepsLink(l: Link, w: Wire)
    requires LinkInv(l, w) && Push(l).Some?
    ensures var m := Push(l).value; LinkInv(m, w) && m.peer == l.peer && m.cap == l.cap
  {
  }

  lemma StopKeepsLink(l: Link, w: Wire)
    requires LinkInv(l, w) && PollStop(l).Some?
    ensures var m := PollStop(l).value; LinkInv(m, w) && m.peer == l.peer && m.cap == l.cap
  {
  }

  predicate Widens(f: Flow, g: Flow) {
    g == f || (g.hello == f.hello && f.data.None?)
  }

  /** A connection does not notice that a side became ready. */
  lemma MoreFlowKeepsLink(l: Link, w: Wire, v: Wire)
    requires LinkInv(l, w) && v.failed == w.failed && v.local == w.local && v.far == w.far
    requires Widens(w.out, v.out) && Widens(w.incoming, v.incoming)
    ensures LinkInv(l, v)
  {
  }

  lemma CloseKeepsLink(l: Link, w: Wire)
    requires LinkInv(l, w)
    ensures LinkInv(Close(l), w.(failed := true))
  {
  }

  // ----- What a step leaves alone -----

  /** A step that only changes one side's connection. */
  lemma LinkChangeKeeps(p: Params, s: State, side: Side, l: Link)
    requires p.Valid() && Inv(p, s) && s.Get(side).ctx.Some?
    requires LinkInv(l, WireOf(p, s, side))
    requires l.cap == p.cap && (s.Get(side).ctx.value.peer.Some? ==> l.peer.Some?)
    requires side == Server && l.peer.Some? ==> s.client.ctx.Some?
    ensures Inv(p, s.Put(side, s.Get(side).(ctx := Some(l))))
  {
    var t := s.Put(side, s.Get(side).(ctx := Some(l)));
    NetCarriesOver(p, s, t);
    SideCarriesOver(p, s, t, Other(side));
    assert WireOf(p, t, side) == WireOf(p, s, side);
    NewLinkFits(p, t, side, l);
  }

  lemma NewLinkFits(p: Params, t: State, side: Side, l: Link)
    requires p.Valid() && t.Get(side).ctx == Some(l) && Linked(side, t.Get(side)) && LinkInv(l, WireOf(p, t, side))
    requires l.cap == p.cap && (side == Client || BeenReady(t.Get(side)) ==> l.peer.Some?)
    requires side == Server && l.peer.Some? ==> t.client.ctx.Some?
    ensures SideInv(p, t, side)
  {
  }

  /** Datagrams stay accounted for when no side gives up a connection or its readiness. */
  lemma NetCarriesOver(p: Params, s: State, t: State)
    requires p.Valid() && NetInv(p, s) && t.net == s.net
    requires forall side :: s.Get(side).ctx.Some? ==> t.Get(side).ctx.Some?
    requires forall side :: BeenReady(s.Get(side)) ==> BeenReady(t.Get(side))
    ensures NetInv(p, t)
  {
    forall d | d in t.net ensures DatagramInv(p, t, d) {
      assert DatagramInv(p, s, d);
      assert forall side :: Says(Out(p, s, side), d.payload) ==> Says(Out(p, t, side), d.payload);
    }
  }

  lemma SideCarriesOver(p: Params, s: State, t: State, side: Side)
    requires p.Valid() && SideInv(p, s, side) && t.Get(side) == s.Get(side)
    requires BeenReady(s.Get(Other(side))) ==> BeenReady(t.Get(Other(side)))
    requires s.client.ctx.Some? ==> t.client.ctx.Some?
    ensures SideInv(p, t, side)
  {
    if s.Get(side).ctx.Some? {
      MoreFlowKeepsLink(s.Get(side).ctx.value, WireOf(p, s, side), WireOf(p, t, side));
    }
  }

  // ----- Every step keeps the invariant -----

  lemma RelayOutKeeps(p: Params, s: State, side: Side)
    requires p.Valid() && Inv(p, s) && RelayStep(s, RelayOut(side)).Some?
    ensures Inv(p, RelayStep(s, RelayOut(side)).value)
  {
    var n := s.Get(side);
    OutKeepsLink(n.ctx.value, WireOf(p, s, side));
    var (l, d) := PollBroadcast(n.ctx.value).value;
    LinkChangeKeeps(p, s, side, l);
    if d.Some? {
      OneMoreDatagram(p, s.Put(side, n.(ctx := Some(l))), side, d.value);
    }
  }

  lemma OneMoreDatagram(p: Params, s: State, side: Side, d: Datagram)
    requires p.Valid() && Inv(p, s) && s.Get(side).ctx.Some?
    requires d == Datagram(AddrOf(p, side), AddrOf(p, Other(side)), d.payload) && Says(Out(p, s, side), d.payload)
    ensures Inv(p, s.(net := s.net + multiset{d}))
  {
    NetChangeKeeps(p, s, s.net + multiset{d});
  }

  lemma NetChangeKeeps(p: Params, s: State, net: multiset<Datagram>)
    requires p.Valid() && Inv(p, s) && forall d :: d in net ==> d in s.net || DatagramInv(p, s, d)
    ensures Inv(p, s.(net := net))
  {
    var t := s.(net := net);
    forall d | d in net ensures DatagramInv(p, t, d) {
      assert DatagramInv(p, s, d);
    }
    SideCarriesOver(p, s, t, Client);
    SideCarriesOver(p, s, t, Server);
  }

  lemma RelayInKeeps(p: Params, s: State, side: Side, d: Datagram)
    requires p.Valid() && Inv(p, s) && RelayStep(s, RelayIn(side, d)).Some?
    ensures Inv(p, RelayStep(s, RelayIn(side, d)).value)
  {
    var l := s.Get(side).ctx.value;
    assert DatagramInv(p, s, d);
    InKeepsLink(l, d, WireOf(p, s, side));
    LinkChangeKeeps(p, s, side, PollSocket(l, d).value);
    NetChangeKeeps(p, s.Put(side, s.Get(side).(ctx := PollSocket(l, d))), s.net - multiset{d});
  }

  lemma RelayPushKeeps(p: Params, s: State, side: Side)
    requires p.Valid() && Inv(p, s) && RelayStep(s, RelayPush(side)).Some?
    ensures Inv(p, RelayStep(s, RelayPush(side)).value)
  {
    var l := s.Get(side).ctx.value;
    PushKeepsLink(l, WireOf(p, s, side));
    LinkChangeKeeps(p, s, side, Push(l).value);
  }

  lemma RelayStopKeeps(p: Params, s: State, side: Side)
    requires p.Valid() && Inv(p, s) && RelayStep(s, RelayStop(side)).Some?
    ensures Inv(p, RelayStep(s, RelayStop(side)).value)
  {
    var l := s.Get(side).ctx.value;
    StopKeepsLink(l, WireOf(p, s, side));
    LinkChangeKeeps(p, s, side, PollStop(l).value);
  }

  lemma NetworkStepKeeps(p: Params, s: State, a: Action)
    requires p.Valid() && Inv(p, s) && NetworkStep(s, a).Some?
    ensures Inv(p, NetworkStep(s, a).value)
  {
    NetChangeKeeps(p, s, NetworkStep(s, a).value.net);
  }

  /** A runner fails: only at its timeout, at a stream the other side closed, or over the
      configuration. */
  lemma FailKeeps(p: Params, s: State, side: Side, why: Error)
    requires p.Valid() && Inv(p, s) && s.Get(side).ctx.Some? && FailsBecause(p, s, side, why)
    requires match s.Get(side).phase {
               case InLoop => why == Timeout || (why == StreamClosed && side == Server)
               case Ready => why == ConfigPanic || why == SendFailed
               case _ => false
             }
    ensures Inv(p, s.Put(side, Fail(s.Get(side), why)))
  {
    var t := s.Put(side, Fail(s.Get(side), why));
    NetCarriesOver(p, s, t);
    SideCarriesOver(p, s, t, Other(side));
    CloseKeepsLink(s.Get(side).ctx.value, WireOf(p, s, side));
    assert WireOf(p, t, side) == WireOf(p, s, side).(failed := true);
  }

  /** A handshake loop ends well. */
  lemma FinishKeeps(p: Params, s: State, side: Side)
    requires p.Valid() && Inv(p, s) && s.Get(side).phase == InLoop && s.Get(side).ctx.value.peer.Some?
    ensures var t := s.Put(side, Finish(s.Get(side)));
            && t.Get(side).phase == Ready && NetInv(p, t) && SideInv(p, t, Client) && SideInv(p, t, Server)
            && FailureInv(p, t, Client) && FailureInv(p, t, Server)
  {
    var t := s.Put(side, Finish(s.Get(side)));
    NetCarriesOver(p, s, t);
    SideCarriesOver(p, s, t, Other(side));
    MoreFlowKeepsLink(s.Get(side).ctx.value, WireOf(p, s, side), WireOf(p, t, side));
  }

  lemma ClientTickKeeps(p: Params, s: State)
    requires p.Valid() && Inv(p, s) && ClientStep(p, s, ClientTick).Some?
    ensures Inv(p, ClientStep(p, s, ClientTick).value)
  {
    var l, x := s.client.ctx.value, Encoded(Message.Handshake(p.id));
    GiveKeepsLink(l, x, WireOf(p, s, Client));
    LinkChangeKeeps(p, s, Client, CtxSend(l, x).value);
  }

  lemma ClientCtrlKeeps(p: Params, s: State, k: nat)
    requires p.Valid() && Inv(p, s) && ClientStep(p, s, ClientCtrl(k)).Some?
    ensures Inv(p, ClientStep(p, s, ClientCtrl(k)).value)
  {
    FinishKeeps(p, s, Client);
    StreamChangeKeeps(p, s.(client := Finish(s.client)), ClientStep(p, s, ClientCtrl(k)).value);
  }

  /** The data path does not depend on the control streams. */
  lemma StreamChangeKeeps(p: Params, s: State, t: State)
    requires p.Valid() && SideInv(p, s, Client) && SideInv(p, s, Server) && NetInv(p, s)
    requires t.client == s.client && t.server == s.server && t.net == s.net
    ensures SideInv(p, t, Client) && SideInv(p, t, Server) && NetInv(p, t)
  {
    NetCarriesOver(p, s, t);
    SideCarriesOver(p, s, t, Client);
    SideCarriesOver(p, s, t, Server);
  }

  lemma ClientStepKeeps(p: Params, s: State, a: Action)
    requires p.Valid() && Inv(p, s) && ClientStep(p, s, a).Some?
    ensures Inv(p, ClientStep(p, s, a).value)
  {
    match a
    case ClientTick => ClientTickKeeps(p, s);
    case ClientCtrl(k) => ClientCtrlKeeps(p, s, k);
    case ClientHello => OpeningKeeps(p, s, a);
    case ClientReply(_) => OpeningKeeps(p, s, a);
  }

  lemma OpeningKeeps(p: Params, s: State, a: Action)
    requires p.Valid() && Inv(p, s) && ClientStep(p, s, a).Some? && (a.ClientHello? || a.ClientReply?)
    ensures Inv(p, ClientStep(p, s, a).value)
  {
    var t := ClientStep(p, s, a).value;
    NetCarriesOver(p, s, t);
    SideCarriesOver(p, s, t, Server);
  }

  lemma ServerDatagramKeeps(p: Params, s: State)
    requires p.Valid() && Inv(p, s) && ServerStep(p, s, ServerDatagram).Some?
    ensures Inv(p, ServerStep(p, s, ServerDatagram).value)
  {
    TakeKeepsLink(s.server.ctx.value, WireOf(p, s, Server));
    var (l, x) := CtxRecv(s.server.ctx.value);
    LinkChangeKeeps(p, s, Server, l);
    var taken := s.(server := s.server.(ctx := Some(l)));
    assert x == Encoded(Message.Handshake(p.id));
    if Client in s.gone {
      FailKeeps(p, taken, Server, StreamClosed);
    } else {
      FinishKeeps(p, taken, Server);
      StreamChangeKeeps(p, taken.(server := Finish(taken.server)), ServerStep(p, s, ServerDatagram).value);
    }
  }

  lemma ServerStepKeeps(p: Params, s: State, a: Action)
    requires p.Valid() && Inv(p, s) && ServerStep(p, s, a).Some?
    ensures Inv(p, ServerStep(p, s, a).value)
  {
    if a.ServerDatagram? {
      ServerDatagramKeeps(p, s);
    } else {
      var t := ServerStep(p, s, a).value;
      NetCarriesOver(p, s, t);
      SideCarriesOver(p, s, t, Client);
    }
  }

  lemma RunTickKeeps(p: Params, s: State, side: Side)
    requires p.Valid() && Inv(p, s) && RunnerStep(s, RunTick(side)).Some?
    ensures Inv(p, RunnerStep(s, RunTick(side)).value)
  {
    var l, x := s.Get(side).ctx.value, Data(p.cfg.len.value);
    GiveKeepsLink(l, x, WireOf(p, s, side));
    if CtxSend(l, x).Some? {
      LinkChangeKeeps(p, s, side, CtxSend(l, x).value);
    } else {
      FailKeeps(p, s, side, SendFailed);
    }
  }

  lemma RunnerStepKeeps(p: Params, s: State, a: Action)
    requires p.Valid() && Inv(p, s) && RunnerStep(s, a).Some?
    ensures Inv(p, RunnerStep(s, a).value)
  {
    match a
    case TimedOut(side) => FailKeeps(p, s, side, Timeout);
    case RunPanics(side) => FailKeeps(p, s, side, ConfigPanic);
    case RunTick(side) => RunTickKeeps(p, s, side);
    case RunRecv(side) =>
      TakeKeepsLink(s.Get(side).ctx.value, WireOf(p, s, side));
      LinkChangeKeeps(p, s, side, CtxRecv(s.Get(side).ctx.value).0);
    case RunCtrl(side, k) =>
      assert false;
  }

  lemma RelayStepKeeps(p: Params, s: State, a: Action)
    requires p.Valid() && Inv(p, s) && RelayStep(s, a).Some?
    ensures Inv(p, RelayStep(s, a).value)
  {
    match a
    case RelayOut(side) => RelayOutKeeps(p, s, side);
    case RelayIn(side, d) => RelayInKeeps(p, s, side, d);
    case RelayPush(side) => RelayPushKeeps(p, s, side);
    case RelayStop(side) => RelayStopKeeps(p, s, side);
  }

  lemma HangupKeeps(p: Params, s: State, side: Side, kept: nat)
    requires p.Valid() && Inv(p, s) && StreamStep(s, Hangup(side, kept)).Some?
    ensures Inv(p, StreamStep(s, Hangup(side, kept)).value)
  {
    StreamChangeKeeps(p, s, StreamStep(s, Hangup(side, kept)).value);
  }

  lemma StreamEndsKeeps(p: Params, s: State, side: Side)
    requires p.Valid() && Inv(p, s) && StreamStep(s, StreamEnds(side)).Some?
    ensures Inv(p, StreamStep(s, StreamEnds(side)).value)
  {
    var t := StreamStep(s, StreamEnds(side)).value;
    assert side == Client;
    NetCarriesOver(p, s, t);
    SideCarriesOver(p, s, t, Server);
  }

  lemma StreamStepKeeps(p: Params, s: State, a: Action)
    requires p.Valid() && Inv(p, s) && StreamStep(s, a).Some?
    ensures Inv(p, StreamStep(s, a).value)
  {
    match a
    case Hangup(side, kept) => HangupKeeps(p, s, side, kept);
    case StreamEnds(side) => StreamEndsKeeps(p, s, side);
  }

  lemma DoKeeps(p: Params, s: State, a: Action)
    requires p.Valid() && Inv(p, s) && Do(p, s, a).Some?
    ensures Inv(p, Do(p, s, a).value)
  {
    if a.OfClient() {
      ClientStepKeeps(p, s, a);
    } else if a.OfServer() {
      ServerStepKeeps(p, s, a);
    } else if a.OfRunner() {
      RunnerStepKeeps(p, s, a);
    } else if a.OfRelay() {
      RelayStepKeeps(p, s, a);
    } else if a.OfStreams() {
      StreamStepKeeps(p, s, a);
    } else {
      NetworkStepKeeps(p, s, a);
    }
  }

  lemma {:induction false} RunKeeps(p: Params, s: State, acts: seq<Action>)
    requires p.Valid() && Inv(p, s) && Run(p, s, acts).Some?
    ensures Inv(p, Run(p, s, acts).value)
  {
    if acts != [] {
      RunKeeps(p, s, acts[..|acts| - 1]);
      DoKeeps(p, Run(p, s, acts[..|acts| - 1]).value, acts[|acts| - 1]);
    }
  }

  lemma ReachableInv(p: Params, s: State)
    requires p.Valid() && Reachable(p, s)
    ensures Inv(p, s)
  {
    var acts :| Run(p, Init(p), acts) == Some(s);
    assert Inv(p, Init(p));
    RunKeeps(p, Init(p), acts);
  }
}

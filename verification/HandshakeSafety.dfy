/** What follows from the invariant in every reachable state and every run of the handshake. */
module HandshakeSafety {
  import opened Prelude
  import opened Relay
  import opened Handshake
  import opened HandshakeInvariant
  import opened HandshakePhases
  import opened HandshakeRuns

  // ----- What holds in every reachable state -----

  /** A side fails otherwise than at its own timeout only if the other side has timed out and
      closed the control streams, or if the test's configuration cannot be used: no unexpected message, no
      failed decode, no failed assert, no `todo!()`. A relay ends only when its own side has failed, or over
      data that fits no datagram: its peer is never unset at a send, no datagram has a wrong sender. */
  lemma OnlyTimeoutsFail(p: Params, s: State, side: Side)
    requires p.Valid() && Reachable(p, s)
    ensures s.Get(side).phase.Failed? ==>
              match s.Get(side).phase.why
              case Timeout => true
              case StreamClosed => Other(side) in s.gone && s.Get(Other(side)).phase == Failed(Timeout)
              case ConfigPanic => !Starts(p.cfg)
              case SendFailed => Starts(p.cfg) && !Usable(p.cfg)
              case _ => false
    ensures s.Get(side).ctx.Some? && s.Get(side).ctx.value.task.Dead? ==>
              match s.Get(side).ctx.value.task.why
              case ReceiverGone => s.Get(side).phase.Failed?
              case Stopped => s.Get(side).phase.Failed?
              case SendError => Starts(p.cfg) && !Usable(p.cfg) && BeenReady(s.Get(side))
              case _ => false
  {
    ReachableInv(p, s);
    assert SideInv(p, s, side) && FailureInv(p, s, side);
  }

  predicate Alive(s: State) {
    !s.client.phase.Failed? && !s.server.phase.Failed?
  }

  lemma {:induction false} NoTimeoutHere(p: Params, acts: seq<Action>, side: Side)
    requires Run(p, Init(p), acts).Some? && WithoutTimeouts(acts)
    ensures Run(p, Init(p), acts).value.Get(side).phase != Failed(Timeout)
  {
    if acts != [] {
      var init, a := acts[..|acts| - 1], acts[|acts| - 1];
      assert a in acts && forall b :: b in init ==> b in acts;
      NoTimeoutHere(p, init, side);
      StepMoves(p, Run(p, Init(p), init).value, a, side);
    }
  }

  /** A run without any timeout can fail if and only if the configuration is not usable. */
  lemma FailsWithoutTimeoutIff(p: Params)
    requires p.Valid()
    ensures (exists acts :: WithoutTimeouts(acts) && Run(p, Init(p), acts).Some? && !Alive(Run(p, Init(p), acts).value))
       <==> !(&& p.cfg.interval.Some? && p.cfg.interval.value > 0
              && p.cfg.len.Some? && p.cfg.len.value <= 65507)
  {
    if Usable(p.cfg) {
      forall acts | WithoutTimeouts(acts) && Run(p, Init(p), acts).Some?
        ensures Alive(Run(p, Init(p), acts).value)
      {
        var s := Run(p, Init(p), acts).value;
        assert Reachable(p, s);
        OnlyTimeoutsFail(p, s, Client);
        OnlyTimeoutsFail(p, s, Server);
        NoTimeoutHere(p, acts, Client);
        NoTimeoutHere(p, acts, Server);
      }
    } else {
      var acts := UnusableFails(p);
    }
  }

  /** The server of an unusable configuration fails on its own: at the start of `run`, or at the send
      that follows the relay's end. */
  lemma UnusableFails(p: Params) returns (acts: seq<Action>)
    requires p.Valid() && !Usable(p.cfg)
    ensures WithoutTimeouts(acts) && Run(p, Init(p), acts).Some?
    ensures Run(p, Init(p), acts).value.server.phase.Failed?
  {
    var init, s0 := FirstHandshake(p);
    var s1 := Do(p, s0, ServerDatagram).value;
    RunExtends(p, init, s0, ServerDatagram, s1);
    init := init + [ServerDatagram];
    if !Starts(p.cfg) {
      RunExtends(p, init, s1, RunPanics(Server), Do(p, s1, RunPanics(Server)).value);
      acts := init + [RunPanics(Server)];
    } else {
      var s2 := Do(p, s1, RunTick(Server)).value;
      RunExtends(p, init, s1, RunTick(Server), s2);
      acts := RelayDiesUnderSend(p, init + [RunTick(Server)], s2);
    }
  }

  lemma RelayDiesUnderSend(p: Params, init: seq<Action>, s0: State) returns (acts: seq<Action>)
    requires p.Valid() && Run(p, Init(p), init) == Some(s0) && WithoutTimeouts(init)
    requires Running(s0.server) && s0.server.ctx.Some?
    requires var l := s0.server.ctx.value;
             l.task == Selecting && !l.lagged && l.peer.Some? && l.unread != [] && !Fits(l.unread[0])
    ensures WithoutTimeouts(acts) && Run(p, Init(p), acts).Some?
    ensures Run(p, Init(p), acts).value.server.phase.Failed?
  {
    var s1 := Do(p, s0, RelayOut(Server)).value;
    RunExtends(p, init, s0, RelayOut(Server), s1);
    var s2 := Do(p, s1, RunTick(Server)).value;
    RunExtends(p, init + [RelayOut(Server)], s1, RunTick(Server), s2);
    acts := init + [RelayOut(Server)] + [RunTick(Server)];
  }

  /** Either side's `unwrap` of a control stream can fail after the other's timeout: the server's
      write of its answer, and the client's first read, whose reply was lost with the connection. */
  lemma ClosedStreamIsMet(p: Params, side: Side)
    requires p.Valid()
    ensures exists s :: Reachable(p, s) && s.Get(side).phase == Failed(StreamClosed)
  {
    if side == Server {
      var s := AnswerIsLost(p);
    } else {
      var s := ReplyIsLost(p);
    }
  }

  lemma AnswerIsLost(p: Params) returns (s: State)
    requires p.Valid()
    ensures Reachable(p, s) && s.server.phase == Failed(StreamClosed)
  {
    var init, s0 := FirstHandshake(p);
    var s1 := Do(p, s0, TimedOut(Client)).value;
    RunExtends(p, init, s0, TimedOut(Client), s1);
    var s2 := Do(p, s1, Hangup(Client, 0)).value;
    RunExtends(p, init + [TimedOut(Client)], s1, Hangup(Client, 0), s2);
    s := Do(p, s2, ServerDatagram).value;
    RunExtends(p, init + [TimedOut(Client)] + [Hangup(Client, 0)], s2, ServerDatagram, s);
  }

  lemma ReplyIsLost(p: Params) returns (s: State)
    requires p.Valid()
    ensures Reachable(p, s) && s.client.phase == Failed(StreamClosed)
  {
    var init := ReplyIsWritten(p);
    var s0 := Answered(p).(server := BoundServer(p));
    var s1 := Do(p, s0, TimedOut(Server)).value;
    RunExtends(p, init, s0, TimedOut(Server), s1);
    var s2 := Do(p, s1, Hangup(Server, 0)).value;
    RunExtends(p, init + [TimedOut(Server)], s1, Hangup(Server, 0), s2);
    s := Do(p, s2, StreamEnds(Client)).value;
    RunExtends(p, init + [TimedOut(Server)] + [Hangup(Server, 0)], s2, StreamEnds(Client), s);
  }

  /** Until the server has answered, everything on its way to it - in the client's channel, in the
      network, in its relay, in its own channel - is the handshake of this client. Whatever it takes, it
      answers with that handshake and becomes ready, unless the client, having timed out, has
      closed the stream for the answer. */
  lemma OnlyHandshakesReachTheLoop(p: Params, s: State)
    requires p.Valid() && Reachable(p, s) && |s.answers| < 2
    ensures var hello := Encoded(Message.Handshake(p.id));
            && (s.client.ctx.Some? ==> AllAre(s.client.ctx.value.unread, hello))
            && (forall d :: d in s.net ==> d == Datagram(p.clientAddr, p.ServerAddr(), hello))
            && (s.server.ctx.Some? ==>
                  && AllAre(s.server.ctx.value.inbox, hello)
                  && (s.server.ctx.value.task.Pushing? ==> s.server.ctx.value.task.p == hello))
    ensures Do(p, s, ServerDatagram).Some? ==>
              var t := Do(p, s, ServerDatagram).value;
              if Client in s.gone then s.client.phase == Failed(Timeout) && t.server.phase == Failed(StreamClosed)
              else t.server.phase == Ready && t.answers == s.answers + [Message.Handshake(p.id)]
                   && t.s2c == [Message.Handshake(p.id)]
  {
    ReachableInv(p, s);
    OnlyHandshakesUnderWay(p, s);
    if Do(p, s, ServerDatagram).Some? {
      ServerAnswersHandshake(p, s);
    }
  }

  lemma OnlyHandshakesUnderWay(p: Params, s: State)
    requires p.Valid() && Inv(p, s) && |s.answers| < 2
    ensures var hello := Encoded(Message.Handshake(p.id));
            && (s.client.ctx.Some? ==> AllAre(s.client.ctx.value.unread, hello))
            && (forall d :: d in s.net ==> d == Datagram(p.clientAddr, p.ServerAddr(), hello))
            && (s.server.ctx.Some? ==>
                  && AllAre(s.server.ctx.value.inbox, hello)
                  && (s.server.ctx.value.task.Pushing? ==> s.server.ctx.value.task.p == hello))
  {
    forall d | d in s.net ensures d == Datagram(p.clientAddr, p.ServerAddr(), Encoded(Message.Handshake(p.id))) {
      assert DatagramInv(p, s, d);
    }
  }

  lemma ServerAnswersHandshake(p: Params, s: State)
    requires p.Valid() && Inv(p, s) && |s.answers| < 2 && ServerStep(p, s, ServerDatagram).Some?
    ensures var t := ServerStep(p, s, ServerDatagram).value;
            if Client in s.gone then s.client.phase == Failed(Timeout) && t.server.phase == Failed(StreamClosed)
            else t.server.phase == Ready && t.answers == s.answers + [Message.Handshake(p.id)]
                 && t.s2c == [Message.Handshake(p.id)]
  {
    ServerDatagramKeeps(p, s);
  }

  predicate AllAre(xs: seq<Payload>, x: Payload) {
    forall i :: 0 <= i < |xs| ==> xs[i] == x
  }

  /** Once the client is ready, the server has been too, having written exactly two messages, the
      client's test and its handshake; both hold the client's configuration, and each relay's peer is the
      address the other is bound to. With a usable configuration the server is ready still. */
  lemma ReadyMeansAgreement(p: Params, s: State)
    requires p.Valid() && Reachable(p, s) && s.client.phase == Ready
    ensures s.answers == [NewTest(p.id, p.cfg), Message.Handshake(p.id)]
    ensures BeenReady(s.server) && (Usable(p.cfg) ==> s.server.phase == Ready)
    ensures s.client.testCfg == s.server.testCfg == Some(p.cfg)
    ensures s.client.ctx.Some? && s.server.ctx.Some?
    ensures s.client.ctx.value.peer == Some(s.server.ctx.value.local) && s.server.ctx.value.local == p.cfg.proto.dst
    ensures s.server.ctx.value.peer == Some(s.client.ctx.value.local) && s.client.ctx.value.local == p.clientAddr
  {
    ReachableInv(p, s);
  }

  /** The server's relay has a peer, the client's address, whenever there is anything to send. */
  lemma PeerIsSetBeforeSending(p: Params, s: State)
    requires p.Valid() && Reachable(p, s) && s.server.ctx.Some?
    ensures s.server.ctx.value.unread != [] ==> s.server.ctx.value.peer == Some(p.clientAddr)
    ensures s.server.ctx.value.peer.None? ==> |s.answers| < 2 && s.server.ctx.value.inbox == []
  {
    ReachableInv(p, s);
  }

  /** Each control stream holds at most one unread message, so an unframed read takes exactly
      one: none is lost behind another. */
  lemma OneMessagePerRead(p: Params, s: State, k: nat)
    requires p.Valid() && Reachable(p, s)
    ensures |s.c2s| <= 1 && |s.s2c| <= 1
    ensures Do(p, s, ClientReply(k)).Some? || Do(p, s, ClientCtrl(k)).Some? || Do(p, s, ServerHello(k)).Some? ==> k == 1
  {
    ReachableInv(p, s);
  }

  /** In no reachable state is there a control message for a ready runner: `handle_msg`, with its
      `todo!()` branches, is never called on either side. */
  lemma HandleMsgIsNeverCalled(p: Params, s: State, side: Side, k: nat)
    requires p.Valid() && Reachable(p, s)
    ensures Do(p, s, RunCtrl(side, k)).None?
  {
    ReachableInv(p, s);
    NothingForRun(p, s, side, k);
  }

  lemma NothingForRun(p: Params, s: State, side: Side, k: nat)
    requires p.Valid() && Inv(p, s)
    ensures RunnerStep(s, RunCtrl(side, k)).None?
  {
  }

  // ----- Once the client is ready -----

  lemma FailureAfter(p: Params, s: State, a: Action, side: Side)
    requires p.Valid() && Inv(p, s) && Do(p, s, a).Some?
    ensures FailureInv(p, Do(p, s, a).value, side)
  {
    DoKeeps(p, s, a);
  }

  lemma ReadyMovesOn(p: Params, s: State, t: State, a: Action, side: Side)
    requires BeenReady(s.Get(side)) && FailureInv(p, t, side)
    requires Stays(s, t, side) || Moves(s.Get(side).phase, t.Get(side).phase, side, a)
    ensures BeenReady(t.Get(side))
  {
  }

  lemma BeenReadyStays(p: Params, s: State, a: Action, side: Side)
    requires p.Valid() && Inv(p, s) && BeenReady(s.Get(side)) && Do(p, s, a).Some?
    ensures BeenReady(Do(p, s, a).value.Get(side))
  {
    StepMoves(p, s, a, side);
    FailureAfter(p, s, a, side);
    ReadyMovesOn(p, s, Do(p, s, a).value, a, side);
  }

  lemma {:induction false} BeenReadyForGood(p: Params, s: State, acts: seq<Action>, side: Side)
    requires p.Valid() && Inv(p, s) && BeenReady(s.Get(side)) && Run(p, s, acts).Some?
    ensures Inv(p, Run(p, s, acts).value) && BeenReady(Run(p, s, acts).value.Get(side))
  {
    if acts != [] {
      var init := acts[..|acts| - 1];
      BeenReadyForGood(p, s, init, side);
      BeenReadyStays(p, Run(p, s, init).value, acts[|acts| - 1], side);
      DoKeeps(p, Run(p, s, init).value, acts[|acts| - 1]);
    }
  }

  /** Once the client is ready, in every continuation both control streams stay empty; and both sides
      stay ready if the configuration is usable, and otherwise fail only as it makes them. */
  lemma ReadyIsQuiet(p: Params, s: State, acts: seq<Action>)
    requires p.Valid() && Reachable(p, s) && s.client.phase == Ready && Run(p, s, acts).Some?
    ensures var t := Run(p, s, acts).value;
            && t.c2s == [] && t.s2c == []
            && BeenReady(t.client) && BeenReady(t.server)
            && (Usable(p.cfg) ==> t.client.phase == Ready && t.server.phase == Ready)
  {
    ReachableInv(p, s);
    BeenReadyForGood(p, s, acts, Client);
  }

  /** A ready runner's `run` panics before its loop exactly when the configuration does not let it
      start. */
  lemma RunPanicsIff(p: Params, s: State, side: Side)
    requires p.Valid() && Reachable(p, s) && s.Get(side).phase == Ready
    ensures Do(p, s, RunPanics(side)).None? <==>
              && p.cfg.interval.Some? && p.cfg.interval.value > 0
              && p.cfg.len.Some? && p.cfg.len.value <= 65535
  {
    ReachableInv(p, s);
  }
}

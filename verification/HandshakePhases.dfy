/** How a runner moves from phase to phase: which step of the handshake can take it out of which. */
module HandshakePhases {
  import opened Prelude
  import opened Relay
  import opened Handshake

  /** A step of `side` itself takes it onwards; only its own timer makes it fail by timeout. */
  predicate Moves(before: Phase, after: Phase, side: Side, a: Action) {
    match before
    case Begin => after != Failed(Timeout)
    case Exchanged => after != Failed(Timeout)
    case InLoop =>
      if a == TimedOut(side) then after == Failed(Timeout)
      else
        && (if side == Server then a.ServerDatagram? else a.ClientTick? || a.ClientCtrl?)
        && (after == Ready || after.Failed?) && after != Failed(Timeout)
    case Ready => a.OfRunner() && after.Failed? && after != Failed(Timeout) && after != Failed(StreamClosed)
    case Failed(_) => false
  }

  predicate Stays(s: State, t: State, side: Side) {
    t.Get(side).phase == s.Get(side).phase
  }

  lemma ClientStepMoves(p: Params, s: State, a: Action, side: Side)
    requires ClientStep(p, s, a).Some?
    ensures var t := ClientStep(p, s, a).value;
            Stays(s, t, side) || (side == Client && Moves(s.client.phase, t.client.phase, Client, a))
  {
  }

  lemma ServerStepMoves(p: Params, s: State, a: Action, side: Side)
    requires ServerStep(p, s, a).Some?
    ensures var t := ServerStep(p, s, a).value;
            Stays(s, t, side) || (side == Server && Moves(s.server.phase, t.server.phase, Server, a))
  {
  }

  lemma RunnerStepMoves(s: State, a: Action, side: Side)
    requires RunnerStep(s, a).Some?
    ensures var t := RunnerStep(s, a).value;
            Stays(s, t, side) || Moves(s.Get(side).phase, t.Get(side).phase, side, a)
  {
  }

  lemma RelayStepStays(s: State, a: Action, side: Side)
    requires RelayStep(s, a).Some?
    ensures Stays(s, RelayStep(s, a).value, side)
  {
  }

  lemma StreamStepMoves(s: State, a: Action, side: Side)
    requires StreamStep(s, a).Some?
    ensures var t := StreamStep(s, a).value;
            Stays(s, t, side) || Moves(s.Get(side).phase, t.Get(side).phase, side, a)
  {
  }

  lemma StepMoves(p: Params, s: State, a: Action, side: Side)
    requires Do(p, s, a).Some?
    ensures var t := Do(p, s, a).value; Stays(s, t, side) || Moves(s.Get(side).phase, t.Get(side).phase, side, a)
  {
    if a.OfClient() {
      ClientStepMoves(p, s, a, side);
    } else if a.OfServer() {
      ServerStepMoves(p, s, a, side);
    } else if a.OfRunner() {
      RunnerStepMoves(s, a, side);
    } else if a.OfRelay() {
      RelayStepStays(s, a, side);
    } else if a.OfStreams() {
      StreamStepMoves(s, a, side);
    }
  }

  // ----- Connections -----

  lemma ClientStepKeepsConnection(p: Params, s: State, a: Action, side: Side)
    requires ClientStep(p, s, a).Some? && s.Get(side).ctx.Some?
    requires s.Get(side).phase != Begin && s.Get(side).phase != Exchanged
    ensures ClientStep(p, s, a).value.Get(side).ctx.Some?
  {
  }

  lemma ServerStepKeepsConnection(p: Params, s: State, a: Action, side: Side)
    requires ServerStep(p, s, a).Some? && s.Get(side).ctx.Some?
    requires s.Get(side).phase != Begin && s.Get(side).phase != Exchanged
    ensures ServerStep(p, s, a).value.Get(side).ctx.Some?
  {
  }

  lemma RunnerStepKeepsConnection(s: State, a: Action, side: Side)
    requires RunnerStep(s, a).Some? && s.Get(side).ctx.Some?
    ensures RunnerStep(s, a).value.Get(side).ctx.Some?
  {
  }

  lemma RelayStepKeepsConnection(s: State, a: Action, side: Side)
    requires RelayStep(s, a).Some? && s.Get(side).ctx.Some?
    ensures RelayStep(s, a).value.Get(side).ctx.Some?
  {
  }

  lemma StreamStepKeepsConnection(s: State, a: Action, side: Side)
    requires StreamStep(s, a).Some? && s.Get(side).ctx.Some?
    ensures StreamStep(s, a).value.Get(side).ctx.Some?
  {
  }

  /** A runner that has a connection keeps it, closed or not. */
  lemma StepKeepsConnection(p: Params, s: State, a: Action, side: Side)
    requires Do(p, s, a).Some? && s.Get(side).ctx.Some? && s.Get(side).phase != Begin && s.Get(side).phase != Exchanged
    ensures Do(p, s, a).value.Get(side).ctx.Some?
  {
    if a.OfClient() {
      ClientStepKeepsConnection(p, s, a, side);
    } else if a.OfServer() {
      ServerStepKeepsConnection(p, s, a, side);
    } else if a.OfRunner() {
      RunnerStepKeepsConnection(s, a, side);
    } else if a.OfRelay() {
      RelayStepKeepsConnection(s, a, side);
    } else if a.OfStreams() {
      StreamStepKeepsConnection(s, a, side);
    }
  }

  // ----- What a message does to a runner -----

  /** The client goes on with a reply exactly if that is a test over UDP, and talks to the address in it. */
  lemma ReplyVerdict(n: Node, m: Message, cap: nat, local: Addr)
    requires n.phase == Exchanged
    ensures var n' := ClientOnReply(n, m, cap, local);
            && (n'.phase == InLoop <==> m.NewTest? && m.cfg.proto.Udp?)
            && (n'.phase != InLoop ==>
                  n'.phase == Failed(if m.NewTest? then NotImplemented
                                     else if m.Handshake? then UnexpectedHandshake else ErrorMessage))
            && (n'.phase == InLoop ==> n'.ctx.Some? && n'.ctx.value.peer == Some(m.cfg.proto.dst))
  {
  }

  /** The server answers exactly a test, with that test, unless the stream for the answer is closed. */
  lemma FirstVerdict(n: Node, m: Message, hungUp: bool)
    requires n.phase == Begin
    ensures var (n', out) := ServerOnTest(n, m, hungUp);
            && (m.NewTest? && !hungUp <==> n'.phase == Exchanged)
            && out == (if m.NewTest? && !hungUp then [m] else [])
            && (m.NewTest? ==> n'.testCfg == Some(m.cfg))
            && (n'.phase != Exchanged ==>
                  n'.phase == Failed(if m.NewTest? then StreamClosed
                                     else if m.Handshake? then NotImplemented else ErrorMessage))
  {
  }

  /** In its loop the client becomes ready exactly at the handshake with its own id, ignores one with another,
      and fails at any other message. */
  lemma LoopVerdict(n: Node, m: Message)
    requires n.phase == InLoop && n.id.Some? && n.testCfg.Some? && n.ctx.Some?
    ensures var n' := ClientOnCtrl(n, m);
            && (n'.phase == Ready <==> m == Message.Handshake(n.id.value))
            && (n'.phase == InLoop <==> m.Handshake? && m.id != n.id.value)
            && (n'.phase == InLoop ==> n' == n)
            && (!m.Handshake? ==> n'.phase == Failed(UnexpectedMessage))
  {
  }

  /** In its loop the server becomes ready exactly at a handshake, whatever its id, that it can answer. */
  lemma DatagramVerdict(n: Node, hungUp: bool)
    requires n.phase == InLoop && n.testCfg.Some? && n.ctx.Some? && n.ctx.value.inbox != []
    ensures var (n', out) := ServerOnDatagram(n, hungUp);
            var x := n.ctx.value.inbox[0];
            var hello := x.Encoded? && x.m.Handshake?;
            && (n'.phase == Ready <==> hello && !hungUp)
            && out == (if hello && !hungUp then [x.m] else [])
            && (n'.phase != Ready ==>
                  n'.phase == Failed(if x.Data? then DecodePanic
                                     else if hello then StreamClosed else UnexpectedMessage))
            && n'.ctx.Some? && n'.ctx.value.returned == n.ctx.value.returned + [x]
  {
  }

  /** In `run` a control message is harmless exactly to a client that does not get a new test. */
  lemma RunVerdict(side: Side, n: Node, m: Message)
    requires n.phase == Ready
    ensures if side == Client && !m.NewTest? then OnRunCtrl(side, n, m) == n
            else OnRunCtrl(side, n, m).phase == Failed(NotImplemented)
  {
  }

  /** A runner that fails drops its connection. */
  lemma FailureCloses(n: Node, why: Error)
    ensures var m := Fail(n, why);
            && m.phase == Failed(why) && (m.ctx.Some? <==> n.ctx.Some?)
            && (m.ctx.Some? ==> !m.ctx.value.open && m.ctx.value.unread == n.ctx.value.unread)
  {
  }
}

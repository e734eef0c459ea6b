/** The relays inside the handshake model: whatever the two runners, the network and the other
    side do, each connection only ever takes steps of the relay, so what the relay conserves is
    conserved in every reachable state of the whole system. */
module HandshakeRelays {
  import opened Prelude
  import opened Relay
  import opened Handshake
  import opened HandshakeInvariant

  predicate Conserves(s: State) {
    forall side :: s.Get(side).ctx.Some? ==>
      var l := s.Get(side).ctx.value; l.cap > 0 && KeepsIncoming(l) && KeepsOutgoing(l)
  }

  /** What one step does to one side's connection: it may open it; an open one takes exactly the steps of
      the relay `ops`, and no others. */
  predicate LinkMoves(before: Option<Link>, after: Option<Link>, ops: seq<Op>) {
    match before
    case None => after.None? || after == Some(NewLink(after.value.cap, after.value.local, after.value.peer))
    case Some(l) => after == LinkRun(l, ops)
  }

  /** The steps of one side's relay inside a step of the system. In its handshake loop the client gives its
      handshake at a tick, in `run` either side gives test data of the configured length, or fails if there is
      no receiver; a message is taken from the channel where the source receives one; and a runner that fails
      drops its connection. */
  function OpsOf(p: Params, s: State, a: Action, side: Side): seq<Op> {
    match a
    case ClientTick => if side == Client then [Give(Encoded(Message.Handshake(p.id)))] else []
    case RunTick(x) =>
      var data := Data(if p.cfg.len.Some? then p.cfg.len.value else 0);
      if x != side then []
      else if s.Get(side).ctx.Some? && s.Get(side).ctx.value.task.Dead? then [Drop]
      else [Give(data)]
    case ServerDatagram => if side == Client then [] else if Client in s.gone then [Take, Drop] else [Take]
    case RunRecv(x) => if x == side then [Take] else []
    case TimedOut(x) => if x == side then [Drop] else []
    case RunPanics(x) => if x == side then [Drop] else []
    case RelayOut(x) => if x == side then [Broadcast] else []
    case RelayIn(x, d) => if x == side then [Socket(d)] else []
    case RelayPush(x) => if x == side then [Forward] else []
    case RelayStop(x) => if x == side then [Halt] else []
    case _ => []
  }

  lemma NoOp(l: Link)
    ensures LinkRun(l, []) == Some(l)
  {
  }

  lemma OneOp(l: Link, op: Op)
    ensures LinkRun(l, [op]) == LinkStep(l, op)
  {
    assert [op][..0] == [];
  }

  lemma TwoOps(l: Link, op1: Op, op2: Op)
    requires LinkStep(l, op1).Some?
    ensures LinkRun(l, [op1, op2]) == LinkStep(LinkStep(l, op1).value, op2)
  {
    OneOp(l, op1);
    assert [op1, op2][..1] == [op1];
  }

  lemma ServerReadsByOps(p: Params, s: State)
    requires p.Valid() && Inv(p, s) && Do(p, s, ServerDatagram).Some?
    ensures LinkMoves(s.server.ctx, Do(p, s, ServerDatagram).value.server.ctx, OpsOf(p, s, ServerDatagram, Server))
  {
    var l := s.server.ctx.value;
    assert Says(Out(p, s, Client), l.inbox[0]);
    OneOp(l, Take);
    TwoOps(l, Take, Drop);
  }

  lemma HandshakesMoveLinks(p: Params, s: State, a: Action, side: Side)
    requires p.Valid() && Inv(p, s) && Do(p, s, a).Some? && (a.OfClient() || a.OfServer())
    requires side == Server ==> !a.ServerDatagram?
    ensures LinkMoves(s.Get(side).ctx, Do(p, s, a).value.Get(side).ctx, OpsOf(p, s, a, side))
  {
    if s.Get(side).ctx.Some? {
      NoOp(s.Get(side).ctx.value);
      OneOp(s.Get(side).ctx.value, Give(Encoded(Message.Handshake(p.id))));
    }
  }

  /** A ready runner's relay fails to take its data only when it has ended. */
  lemma TickMovesLink(p: Params, s: State, side: Side)
    requires p.Valid() && Inv(p, s) && RunnerStep(s, RunTick(side)).Some?
    ensures var t := RunnerStep(s, RunTick(side)).value;
            LinkMoves(s.Get(side).ctx, t.Get(side).ctx, OpsOf(p, s, RunTick(side), side))
  {
    OneOp(s.Get(side).ctx.value, OpsOf(p, s, RunTick(side), side)[0]);
  }

  lemma RunnersMoveLinks(p: Params, s: State, a: Action, side: Side)
    requires p.Valid() && Inv(p, s) && RunnerStep(s, a).Some?
    ensures LinkMoves(s.Get(side).ctx, RunnerStep(s, a).value.Get(side).ctx, OpsOf(p, s, a, side))
  {
    if a == RunTick(side) {
      TickMovesLink(p, s, side);
    } else if s.Get(side).ctx.Some? {
      NoOp(s.Get(side).ctx.value);
      OneOp(s.Get(side).ctx.value, Take);
      OneOp(s.Get(side).ctx.value, Drop);
      NothingForRun(p, s, a);
    }
  }

  lemma NothingForRun(p: Params, s: State, a: Action)
    requires p.Valid() && Inv(p, s) && RunnerStep(s, a).Some?
    ensures !a.RunCtrl?
  {
  }

  lemma RelaysMoveLinks(p: Params, s: State, a: Action, side: Side)
    requires RelayStep(s, a).Some?
    ensures LinkMoves(s.Get(side).ctx, RelayStep(s, a).value.Get(side).ctx, OpsOf(p, s, a, side))
  {
    if side == a.side {
      OneOp(s.Get(side).ctx.value, OpsOf(p, s, a, side)[0]);
      match a
      case RelayOut(_) => SendingMovesItsLink(s, side);
      case _ => ReceivingMovesItsLink(p, s, a);
    } else if s.Get(side).ctx.Some? {
      NoOp(s.Get(side).ctx.value);
    }
  }

  lemma SendingMovesItsLink(s: State, side: Side)
    requires RelayStep(s, RelayOut(side)).Some?
    ensures RelayStep(s, RelayOut(side)).value.Get(side).ctx == LinkStep(s.Get(side).ctx.value, Broadcast)
  {
  }

  lemma ReceivingMovesItsLink(p: Params, s: State, a: Action)
    requires (a.RelayIn? || a.RelayPush? || a.RelayStop?) && RelayStep(s, a).Some?
    ensures RelayStep(s, a).value.Get(a.side).ctx == LinkStep(s.Get(a.side).ctx.value, OpsOf(p, s, a, a.side)[0])
  {
  }

  lemma MoveConserves(before: Option<Link>, after: Option<Link>, ops: seq<Op>, cap: nat)
    requires LinkMoves(before, after, ops) && cap > 0
    requires before.Some? ==> before.value.cap > 0 && KeepsIncoming(before.value) && KeepsOutgoing(before.value)
    requires after.Some? ==> after.value.cap == cap
    ensures after.Some? ==> KeepsIncoming(after.value) && KeepsOutgoing(after.value)
  {
    if before.Some? && after.Some? && after == LinkRun(before.value, ops) {
      RunKeepsBoth(before.value, ops);
    }
  }

  /** Every step of the system moves each side's connection by exactly the steps of its relay. */
  lemma StepMovesLinks(p: Params, s: State, a: Action, side: Side)
    requires p.Valid() && Inv(p, s) && Do(p, s, a).Some?
    ensures LinkMoves(s.Get(side).ctx, Do(p, s, a).value.Get(side).ctx, OpsOf(p, s, a, side))
  {
    if a.ServerDatagram? && side == Server {
      ServerReadsByOps(p, s);
    } else if a.OfClient() || a.OfServer() {
      HandshakesMoveLinks(p, s, a, side);
    } else if a.OfRunner() {
      RunnersMoveLinks(p, s, a, side);
    } else if a.OfRelay() {
      RelaysMoveLinks(p, s, a, side);
    } else if s.Get(side).ctx.Some? {
      NoOp(s.Get(side).ctx.value);
    }
  }

  lemma StepConserves(p: Params, s: State, a: Action)
    requires p.Valid() && Inv(p, s) && Conserves(s) && Do(p, s, a).Some?
    ensures Conserves(Do(p, s, a).value)
  {
    var t := Do(p, s, a).value;
    DoKeeps(p, s, a);
    forall side | t.Get(side).ctx.Some?
      ensures var l := t.Get(side).ctx.value; l.cap > 0 && KeepsIncoming(l) && KeepsOutgoing(l)
    {
      assert SideInv(p, t, side);
      StepMovesLinks(p, s, a, side);
      MoveConserves(s.Get(side).ctx, t.Get(side).ctx, OpsOf(p, s, a, side), p.cap);
    }
  }

  lemma {:induction false} RunConserves(p: Params, acts: seq<Action>)
    requires p.Valid() && Run(p, Init(p), acts).Some?
    ensures Inv(p, Run(p, Init(p), acts).value) && Conserves(Run(p, Init(p), acts).value)
  {
    if acts != [] {
      RunConserves(p, acts[..|acts| - 1]);
      var s := Run(p, Init(p), acts[..|acts| - 1]).value;
      StepConserves(p, s, acts[|acts| - 1]);
      DoKeeps(p, s, acts[|acts| - 1]);
    }
  }

  /** In every reachable state, on each side: the runner has taken, in order and without a gap, what
      the socket delivered, up to what is queued or in hand; and what went out is an in-order
      subsequence of what the runner gave, short of it by the overwritten and the unread. */
  lemma RelaysConserveInEveryRun(p: Params, s: State, side: Side)
    requires p.Valid() && Reachable(p, s) && s.Get(side).ctx.Some?
    ensures var l := s.Get(side).ctx.value;
            && l.returned <= l.accepted
            && (!s.Get(side).phase.Failed? ==> l.accepted == l.returned + l.inbox + InHand(l))
            && Subsequence(l.emitted, l.given)
            && |l.given| == |l.emitted| + |l.unread| + l.skipped
  {
    var acts :| Run(p, Init(p), acts) == Some(s);
    RunConserves(p, acts);
    assert SideInv(p, s, side);
    var l := s.Get(side).ctx.value;
    var older := |l.given| - |l.unread|;
    assert l.given == l.given[..older] + l.unread;
    SubsequenceOfPrefix(l.emitted, l.given[..older], l.unread);
  }
}

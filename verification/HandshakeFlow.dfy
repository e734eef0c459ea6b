/** Can the test's data still flow once both sides are ready? Exactly when one of the two relays is not muted,
    or enough is on its way to wake one up: two relays that have both overflowed wait for each other for
    ever. */
module HandshakeFlow {
  import opened Prelude
  import opened Relay
  import opened Handshake
  import opened HandshakeInvariant
  import opened HandshakeRuns
  import opened HandshakeSafety
  import opened HandshakeLiveness

  /** Both sides are in `run`. */
  ghost predicate Flowing(p: Params, s: State)
    requires p.Valid()
  {
    Inv(p, s) && Usable(p.cfg) && s.client.phase == Ready && s.server.phase == Ready
  }

  function LinkOf(s: State, side: Side): Link
    requires s.Get(side).ctx.Some?
  {
    s.Get(side).ctx.value
  }

  lemma FlowingLinks(p: Params, s: State, side: Side)
    requires p.Valid() && Flowing(p, s)
    ensures s.Get(side).ctx.Some? && Running(s.Get(side))
    ensures LinkInv(LinkOf(s, side), WireOf(p, s, side)) && LinkOf(s, side).peer.Some? && LinkOf(s, side).open
    ensures LinkOf(s, side).cap > 0 && !LinkOf(s, side).task.Dead?
    ensures forall i :: 0 <= i < |LinkOf(s, side).unread| ==> Fits(LinkOf(s, side).unread[i])
  {
    assert SideInv(p, s, side);
  }

  /** Both sides stay in `run`. */
  lemma FlowingStays(p: Params, s: State, a: Action)
    requires p.Valid() && Flowing(p, s) && Do(p, s, a).Some?
    ensures Flowing(p, Do(p, s, a).value)
  {
    BeenReadyStays(p, s, a, Client);
    BeenReadyStays(p, s, a, Server);
    DoKeeps(p, s, a);
    StillReady(p, Do(p, s, a).value, Client);
    StillReady(p, Do(p, s, a).value, Server);
  }

  lemma StillReady(p: Params, t: State, side: Side)
    requires p.Valid() && Inv(p, t) && Usable(p.cfg) && BeenReady(t.Get(side))
    ensures t.Get(side).phase == Ready
  {
    assert FailureInv(p, t, side);
  }

  // ----- What wakes a relay up -----

  /** How many datagrams have to arrive before the relay sends again: one to a relay that has been told of an
      overflow, or is about to be, and two to a relay that overflowed again while it was deaf, as the
      first only lets it be told of that. */
  function Need(l: Link): nat {
    if l.task == Deaf then (if l.lagged then 2 else 1) else if l.lagged then 1 else 0
  }

  ghost predicate One(net: multiset<Datagram>, to: Addr) {
    exists d :: d in net && d.dst == to
  }

  ghost predicate Two(net: multiset<Datagram>, to: Addr) {
    exists d :: d in net && d.dst == to && One(net - multiset{d}, to)
  }

  /** At least `k` datagrams, of zero, one or two, are on their way to `to`. */
  ghost predicate Enough(net: multiset<Datagram>, to: Addr, k: nat) {
    match k
    case 0 => true
    case 1 => One(net, to)
    case _ => Two(net, to)
  }

  lemma OneOfMore(net: multiset<Datagram>, more: multiset<Datagram>, to: Addr)
    requires net <= more && One(net, to)
    ensures One(more, to)
  {
    var d :| d in net && d.dst == to;
    assert d in more;
  }

  lemma EnoughOfMore(net: multiset<Datagram>, more: multiset<Datagram>, to: Addr, k: nat)
    requires net <= more && Enough(net, to, k)
    ensures Enough(more, to, k)
  {
    if k == 1 {
      OneOfMore(net, more, to);
    } else if k > 1 {
      var d :| d in net && d.dst == to && One(net - multiset{d}, to);
      OneOfMore(net - multiset{d}, more - multiset{d}, to);
      assert d in more;
    }
  }

  lemma OneMoreIsEnough(net: multiset<Datagram>, d: Datagram, k: nat)
    requires Enough(net, d.dst, k) && k <= 1
    ensures Enough(net + multiset{d}, d.dst, k + 1)
  {
    assert d in net + multiset{d};
    assert net + multiset{d} - multiset{d} == net;
  }

  lemma EnoughIsEnough(net: multiset<Datagram>, to: Addr, k: nat, j: nat)
    requires Enough(net, to, k) && j <= k
    ensures Enough(net, to, j)
  {
    if k > 1 && j == 1 {
      var d :| d in net && d.dst == to && One(net - multiset{d}, to);
    }
  }

  // ----- Dead for good -----

  ghost predicate CanWake(p: Params, s: State, side: Side)
    requires p.Valid() && s.Get(side).ctx.Some?
  {
    Enough(s.net, AddrOf(p, side), Need(LinkOf(s, side)))
  }

  /** Neither relay sends again before it receives more than what is on its way. */
  ghost predicate Silenced(p: Params, s: State)
    requires p.Valid()
  {
    && s.client.ctx.Some? && !CanWake(p, s, Client)
    && s.server.ctx.Some? && !CanWake(p, s, Server)
  }

  /** The link needs no fewer than before, what it took from the network apart. */
  predicate NeedsOn(l: Link, m: Link, taken: nat) {
    Need(m) + taken >= Need(l) && m.emitted == l.emitted
  }

  lemma AsleepRelay(l: Link)
    requires Need(l) > 0 && PollBroadcast(l).Some?
    ensures PollBroadcast(l).value.1.None? && NeedsOn(l, PollBroadcast(l).value.0, 0)
  {
  }

  lemma AsleepTakes(l: Link, d: Datagram)
    requires Need(l) > 1 && PollSocket(l, d).Some?
    ensures NeedsOn(l, PollSocket(l, d).value, 1) && Need(PollSocket(l, d).value) <= 1
  {
  }

  lemma AsleepGiven(l: Link, x: Payload)
    requires Need(l) > 0 && CtxSend(l, x).Some?
    ensures NeedsOn(l, CtxSend(l, x).value, 0)
  {
  }

  /** What is not enough stays so, for a link that needs on. */
  lemma StillNotEnough(net: multiset<Datagram>, to: Addr, l: Link, m: Link)
    requires !Enough(net, to, Need(l)) && NeedsOn(l, m, 0)
    ensures !Enough(net, to, Need(m))
  {
    if Enough(net, to, Need(m)) {
      EnoughIsEnough(net, to, Need(m), Need(l));
    }
  }

  lemma NotEvenMore(net: multiset<Datagram>, to: Addr, j: nat, k: nat)
    requires !Enough(net, to, j) && j <= k
    ensures !Enough(net, to, k)
  {
    if Enough(net, to, k) {
      EnoughIsEnough(net, to, k, j);
    }
  }

  /** A datagram taken is one less that is needed. */
  lemma StillNotEnoughAfter(net: multiset<Datagram>, d: Datagram, l: Link, m: Link)
    requires !Enough(net, d.dst, Need(l)) && NeedsOn(l, m, 1) && d in net && Need(m) <= 1
    ensures !Enough(net - multiset{d}, d.dst, Need(m))
  {
    NotEvenMore(net, d.dst, Need(l), Need(m) + 1);
    assert net - multiset{d} + multiset{d} == net;
    if Enough(net - multiset{d}, d.dst, Need(m)) {
      OneMoreIsEnough(net - multiset{d}, d, Need(m));
    }
  }

  lemma OtherStillAsleep(net: multiset<Datagram>, less: multiset<Datagram>, to: Addr, l: Link)
    requires !Enough(net, to, Need(l)) && less <= net
    ensures !Enough(less, to, Need(l))
  {
    if Enough(less, to, Need(l)) {
      EnoughOfMore(less, net, to, Need(l));
    }
  }

  lemma NoneToTake(p: Params, s: State, side: Side, d: Datagram)
    requires p.Valid() && s.Get(side).ctx.Some? && !CanWake(p, s, side) && d in s.net && d.dst == AddrOf(p, side)
    ensures Need(LinkOf(s, side)) > 1
  {
    assert One(s.net, d.dst);
  }

  /** A step of one side's link that takes nothing from the network. */
  lemma SilenceFollows(p: Params, s: State, t: State, side: Side)
    requires p.Valid() && Silenced(p, s) && t.net == s.net
    requires t.Get(Other(side)) == s.Get(Other(side)) && t.Get(side).ctx.Some?
    requires NeedsOn(LinkOf(s, side), LinkOf(t, side), 0)
    ensures Silenced(p, t) && SameEmitted(s, t)
  {
    StillNotEnough(s.net, AddrOf(p, side), LinkOf(s, side), LinkOf(t, side));
  }

  predicate SameEmitted(s: State, t: State) {
    && s.client.ctx.Some? && t.client.ctx.Some? && t.client.ctx.value.emitted == s.client.ctx.value.emitted
    && s.server.ctx.Some? && t.server.ctx.Some? && t.server.ctx.value.emitted == s.server.ctx.value.emitted
  }

  lemma ArrivalStaysSilenced(p: Params, s: State, side: Side, d: Datagram)
    requires p.Valid() && Flowing(p, s) && Silenced(p, s) && RelayStep(s, RelayIn(side, d)).Some?
    ensures Silenced(p, RelayStep(s, RelayIn(side, d)).value)
    ensures SameEmitted(s, RelayStep(s, RelayIn(side, d)).value)
  {
    var t := RelayStep(s, RelayIn(side, d)).value;
    FlowingLinks(p, s, side);
    NoneToTake(p, s, side, d);
    AsleepTakes(LinkOf(s, side), d);
    StillNotEnoughAfter(s.net, d, LinkOf(s, side), LinkOf(t, side));
    OtherStillAsleep(s.net, t.net, AddrOf(p, Other(side)), LinkOf(s, Other(side)));
  }

  lemma OutStaysSilenced(p: Params, s: State, side: Side)
    requires p.Valid() && Flowing(p, s) && Silenced(p, s) && RelayStep(s, RelayOut(side)).Some?
    ensures Silenced(p, RelayStep(s, RelayOut(side)).value)
    ensures SameEmitted(s, RelayStep(s, RelayOut(side)).value)
  {
    FlowingLinks(p, s, side);
    AsleepRelay(LinkOf(s, side));
    SilenceFollows(p, s, RelayStep(s, RelayOut(side)).value, side);
  }

  lemma PushStaysSilenced(p: Params, s: State, side: Side)
    requires p.Valid() && Flowing(p, s) && Silenced(p, s) && RelayStep(s, RelayPush(side)).Some?
    ensures Silenced(p, RelayStep(s, RelayPush(side)).value)
    ensures SameEmitted(s, RelayStep(s, RelayPush(side)).value)
  {
    FlowingLinks(p, s, side);
    SilenceFollows(p, s, RelayStep(s, RelayPush(side)).value, side);
  }

  lemma RelaysStaySilenced(p: Params, s: State, a: Action)
    requires p.Valid() && Flowing(p, s) && Silenced(p, s) && RelayStep(s, a).Some?
    ensures Silenced(p, RelayStep(s, a).value) && SameEmitted(s, RelayStep(s, a).value)
  {
    match a
    case RelayOut(x) => OutStaysSilenced(p, s, x);
    case RelayIn(x, d) => ArrivalStaysSilenced(p, s, x, d);
    case RelayPush(x) => PushStaysSilenced(p, s, x);
    case RelayStop(x) => FlowingLinks(p, s, x);
  }

  lemma TickStaysSilenced(p: Params, s: State, side: Side)
    requires p.Valid() && Flowing(p, s) && Silenced(p, s) && RunnerStep(s, RunTick(side)).Some?
    ensures Silenced(p, RunnerStep(s, RunTick(side)).value)
    ensures SameEmitted(s, RunnerStep(s, RunTick(side)).value)
  {
    FlowingLinks(p, s, side);
    AsleepGiven(LinkOf(s, side), Data(p.cfg.len.value));
    SilenceFollows(p, s, RunnerStep(s, RunTick(side)).value, side);
  }

  lemma RunnersStaySilenced(p: Params, s: State, a: Action)
    requires p.Valid() && Flowing(p, s) && Silenced(p, s) && RunnerStep(s, a).Some?
    ensures Silenced(p, RunnerStep(s, a).value) && SameEmitted(s, RunnerStep(s, a).value)
  {
    match a
    case TimedOut(_) =>
    case RunPanics(x) => FlowingLinks(p, s, x);
    case RunTick(x) => TickStaysSilenced(p, s, x);
    case RunRecv(x) => SilenceFollows(p, s, RunnerStep(s, a).value, x);
    case RunCtrl(x, k) => NothingForRun(p, s, x, k);
  }

  lemma OthersStaySilenced(p: Params, s: State, a: Action)
    requires p.Valid() && Flowing(p, s) && Silenced(p, s) && Do(p, s, a).Some?
    requires !a.OfRelay() && !a.OfRunner() && !a.Copy?
    ensures Silenced(p, Do(p, s, a).value) && SameEmitted(s, Do(p, s, a).value)
  {
    var t := Do(p, s, a).value;
    assert t.net <= s.net && t.client == s.client && t.server == s.server;
    OtherStillAsleep(s.net, t.net, AddrOf(p, Client), LinkOf(s, Client));
    OtherStillAsleep(s.net, t.net, AddrOf(p, Server), LinkOf(s, Server));
  }

  lemma StaysSilenced(p: Params, s: State, a: Action)
    requires p.Valid() && Flowing(p, s) && Silenced(p, s) && Do(p, s, a).Some? && !a.Copy?
    ensures Silenced(p, Do(p, s, a).value) && SameEmitted(s, Do(p, s, a).value)
  {
    if a.OfRelay() {
      RelaysStaySilenced(p, s, a);
    } else if a.OfRunner() {
      RunnersStaySilenced(p, s, a);
    } else {
      OthersStaySilenced(p, s, a);
    }
  }

  /** The network duplicates nothing in the run. */
  predicate WithoutCopies(acts: seq<Action>) {
    forall a :: a in acts ==> !a.Copy?
  }

  lemma {:induction false} SilencedForever(p: Params, s: State, acts: seq<Action>)
    requires p.Valid() && Flowing(p, s) && Silenced(p, s) && Run(p, s, acts).Some? && WithoutCopies(acts)
    ensures Flowing(p, Run(p, s, acts).value) && Silenced(p, Run(p, s, acts).value)
    ensures SameEmitted(s, Run(p, s, acts).value)
  {
    if acts != [] {
      var init, a := acts[..|acts| - 1], acts[|acts| - 1];
      assert a in acts && forall b :: b in init ==> b in acts;
      SilencedForever(p, s, init);
      StaysSilenced(p, Run(p, s, init).value, a);
      FlowingStays(p, Run(p, s, init).value, a);
    }
  }

  // ----- Otherwise twenty-two steps are enough -----

  /** The relay can send without receiving anything. */
  predicate Awake(l: Link) {
    Need(l) == 0
  }

  /** What a relay that is awake has to do before it sends. */
  function SendRank(l: Link): nat {
    if l.task.Pushing? then (if |l.inbox| < MPSC_SIZE then 3 else 4)
    else if l.unread == [] then 2 else 1
  }

  function NextSend(l: Link, side: Side): Action {
    match SendRank(l)
    case 4 => RunRecv(side)
    case 3 => RelayPush(side)
    case 2 => RunTick(side)
    case _ => RelayOut(side)
  }

  /** Nothing has been sent yet, and the relay is closer to sending. */
  predicate CloserToSend(l: Link, m: Option<Link>) {
    m.Some? && Awake(m.value) && SendRank(m.value) < SendRank(l) && m.value.emitted == l.emitted
  }

  lemma RunnerGetsCloserToSend(p: Params, s: State, side: Side)
    requires p.Valid() && Flowing(p, s) && s.Get(side).ctx.Some? && Awake(LinkOf(s, side))
    requires SendRank(LinkOf(s, side)) == 4 || SendRank(LinkOf(s, side)) == 2
    ensures RunnerStep(s, NextSend(LinkOf(s, side), side)).Some?
    ensures var l, t := LinkOf(s, side), RunnerStep(s, NextSend(LinkOf(s, side), side)).value;
            CloserToSend(l, t.Get(side).ctx) && t.Get(Other(side)) == s.Get(Other(side)) && t.net == s.net
  {
    FlowingLinks(p, s, side);
  }

  lemma RelayGetsCloserToSend(p: Params, s: State, side: Side)
    requires p.Valid() && Flowing(p, s) && s.Get(side).ctx.Some? && Awake(LinkOf(s, side))
    requires SendRank(LinkOf(s, side)) == 3
    ensures RelayStep(s, RelayPush(side)).Some?
    ensures var l, t := LinkOf(s, side), RelayStep(s, RelayPush(side)).value;
            CloserToSend(l, t.Get(side).ctx) && t.Get(Other(side)) == s.Get(Other(side)) && t.net == s.net
  {
    FlowingLinks(p, s, side);
  }

  /** One datagram more has gone out, to the other side, and the relay has kept awake. */
  ghost predicate Sent(p: Params, s: State, t: State, side: Side)
    requires p.Valid() && s.Get(side).ctx.Some?
  {
    && t.Get(side).ctx.Some? && Awake(LinkOf(t, side))
    && |LinkOf(t, side).emitted| == |LinkOf(s, side).emitted| + 1
    && exists d: Datagram :: d.dst == AddrOf(p, Other(side)) && t.net == s.net + multiset{d}
  }

  lemma RelaySends(p: Params, s: State, side: Side)
    requires p.Valid() && Flowing(p, s) && s.Get(side).ctx.Some? && Awake(LinkOf(s, side))
    requires SendRank(LinkOf(s, side)) == 1
    ensures RelayStep(s, RelayOut(side)).Some?
    ensures var t := RelayStep(s, RelayOut(side)).value;
            Sent(p, s, t, side) && t.Get(Other(side)) == s.Get(Other(side))
  {
    FlowingLinks(p, s, side);
    var l := LinkOf(s, side);
    assert Fits(l.unread[0]);
    var d := Datagram(l.local, l.peer.value, l.unread[0]);
    assert RelayStep(s, RelayOut(side)).value.net == s.net + multiset{d};
  }

  /** One step, which leaves the other side alone, and at last sends a datagram. */
  lemma SendGetsCloser(p: Params, s: State, side: Side)
    requires p.Valid() && Flowing(p, s) && s.Get(side).ctx.Some? && Awake(LinkOf(s, side))
    ensures Do(p, s, NextSend(LinkOf(s, side), side)).Some?
    ensures var l, t := LinkOf(s, side), Do(p, s, NextSend(LinkOf(s, side), side)).value;
            && t.Get(Other(side)) == s.Get(Other(side))
            && (Sent(p, s, t, side) || (CloserToSend(l, t.Get(side).ctx) && t.net == s.net))
  {
    var rank := SendRank(LinkOf(s, side));
    if rank == 1 {
      RelaySends(p, s, side);
    } else if rank == 3 {
      RelayGetsCloserToSend(p, s, side);
    } else {
      RunnerGetsCloserToSend(p, s, side);
    }
  }

  /** What a relay that is asleep has to do before it is awake, if enough arrives: one that overflowed while
      it was deaf has to be told first. */
  function WakeRank(l: Link): nat {
    if l.task.Pushing? then (if |l.inbox| < MPSC_SIZE then 3 else 4)
    else if l.task != Deaf then 2
    else if l.lagged then 5 else 1
  }

  function NextWake(l: Link, side: Side, d: Datagram): Action {
    match WakeRank(l)
    case 5 => RelayIn(side, d)
    case 4 => RunRecv(side)
    case 3 => RelayPush(side)
    case 2 => RelayOut(side)
    case _ => RelayIn(side, d)
  }

  /** Nothing has been sent; the relay is closer to being awake, or is, and enough is still on its way. */
  ghost predicate CloserToWake(p: Params, l: Link, t: State, side: Side)
    requires p.Valid()
  {
    && t.Get(side).ctx.Some? && LinkOf(t, side).emitted == l.emitted
    && (Awake(LinkOf(t, side)) || (WakeRank(LinkOf(t, side)) < WakeRank(l) && CanWake(p, t, side)))
  }

  lemma TakingGetsCloser(p: Params, s: State, side: Side)
    requires p.Valid() && Flowing(p, s) && s.Get(side).ctx.Some? && !Awake(LinkOf(s, side)) && CanWake(p, s, side)
    requires WakeRank(LinkOf(s, side)) == 4
    ensures RunnerStep(s, RunRecv(side)).Some?
    ensures var t := RunnerStep(s, RunRecv(side)).value;
            CloserToWake(p, LinkOf(s, side), t, side) && t.Get(Other(side)) == s.Get(Other(side))
  {
    FlowingLinks(p, s, side);
  }

  lemma PollingGetsCloser(p: Params, s: State, side: Side)
    requires p.Valid() && Flowing(p, s) && s.Get(side).ctx.Some? && !Awake(LinkOf(s, side)) && CanWake(p, s, side)
    requires 2 <= WakeRank(LinkOf(s, side)) <= 3
    ensures var a := if WakeRank(LinkOf(s, side)) == 3 then RelayPush(side) else RelayOut(side);
            && RelayStep(s, a).Some?
            && CloserToWake(p, LinkOf(s, side), RelayStep(s, a).value, side)
            && RelayStep(s, a).value.Get(Other(side)) == s.Get(Other(side))
  {
    FlowingLinks(p, s, side);
  }

  /** A datagram that a deaf relay can take so that enough is left. */
  lemma OneToTake(p: Params, s: State, side: Side) returns (d: Datagram)
    requires p.Valid() && s.Get(side).ctx.Some? && CanWake(p, s, side) && Need(LinkOf(s, side)) > 0
    ensures d in s.net && d.dst == AddrOf(p, side)
    ensures Enough(s.net - multiset{d}, AddrOf(p, side), Need(LinkOf(s, side)) - 1)
  {
    var to := AddrOf(p, side);
    if Need(LinkOf(s, side)) == 1 {
      d :| d in s.net && d.dst == to;
    } else {
      d :| d in s.net && d.dst == to && One(s.net - multiset{d}, to);
    }
  }

  lemma ArrivingGetsCloser(p: Params, s: State, side: Side, d: Datagram)
    requires p.Valid() && Flowing(p, s) && s.Get(side).ctx.Some? && LinkOf(s, side).task == Deaf
    requires d in s.net && d.dst == AddrOf(p, side)
    requires Enough(s.net - multiset{d}, AddrOf(p, side), Need(LinkOf(s, side)) - 1)
    ensures RelayStep(s, RelayIn(side, d)).Some?
    ensures var t := RelayStep(s, RelayIn(side, d)).value;
            CloserToWake(p, LinkOf(s, side), t, side) && t.Get(Other(side)) == s.Get(Other(side))
  {
    FlowingLinks(p, s, side);
    assert DatagramInv(p, s, d);
  }

  lemma WakeGetsCloser(p: Params, s: State, side: Side) returns (a: Action)
    requires p.Valid() && Flowing(p, s) && s.Get(side).ctx.Some? && !Awake(LinkOf(s, side)) && CanWake(p, s, side)
    ensures Do(p, s, a).Some? && !a.Copy?
    ensures var t := Do(p, s, a).value;
            CloserToWake(p, LinkOf(s, side), t, side) && t.Get(Other(side)) == s.Get(Other(side))
  {
    FlowingLinks(p, s, side);
    var rank := WakeRank(LinkOf(s, side));
    if rank == 4 {
      a := RunRecv(side);
      TakingGetsCloser(p, s, side);
    } else if LinkOf(s, side).task == Deaf {
      var d := OneToTake(p, s, side);
      a := RelayIn(side, d);
      ArrivingGetsCloser(p, s, side, d);
    } else {
      a := if rank == 3 then RelayPush(side) else RelayOut(side);
      PollingGetsCloser(p, s, side);
    }
  }

  /** How many datagrams to `side` are missing from those it needs. */
  ghost function Missing(p: Params, s: State, side: Side): nat
    requires p.Valid() && s.Get(side).ctx.Some?
  {
    var need := Need(LinkOf(s, side));
    if Enough(s.net, AddrOf(p, side), need) then 0
    else if need > 0 && Enough(s.net, AddrOf(p, side), need - 1) then 1 else 2
  }

  lemma OneSentIsOneLess(p: Params, s: State, t: State, side: Side)
    requires p.Valid() && s.Get(side).ctx.Some? && t.Get(side) == s.Get(side) && Missing(p, s, side) > 0
    requires exists d: Datagram :: d.dst == AddrOf(p, side) && t.net == s.net + multiset{d}
    ensures Missing(p, t, side) < Missing(p, s, side)
  {
    var d: Datagram :| d.dst == AddrOf(p, side) && t.net == s.net + multiset{d};
    var need := Need(LinkOf(s, side));
    if Enough(s.net, d.dst, need - 1) {
      OneMoreIsEnough(s.net, d, need - 1);
    } else {
      assert Enough(s.net, d.dst, 0);
      OneMoreIsEnough(s.net, d, 0);
      EnoughIsEnough(t.net, d.dst, 1, need - 1);
    }
  }

  /** How far `side` is from sending its next datagram. */
  ghost function FlowRank(p: Params, s: State, side: Side): nat
    requires p.Valid() && s.client.ctx.Some? && s.server.ctx.Some?
  {
    var l, far := LinkOf(s, side), LinkOf(s, Other(side));
    if Awake(l) then SendRank(l)
    else if CanWake(p, s, side) then 4 + WakeRank(l)
    else if Awake(far) then 5 + 4 * Missing(p, s, side) + SendRank(far)
    else 17 + WakeRank(far)
  }

  /** One datagram of `side` more, or a step towards it. */
  ghost predicate Nearer(p: Params, s: State, t: State, side: Side)
    requires p.Valid() && s.client.ctx.Some? && s.server.ctx.Some?
  {
    && t.client.ctx.Some? && t.server.ctx.Some?
    && (|LinkOf(t, side).emitted| > |LinkOf(s, side).emitted|
        || (&& !Silenced(p, t) && FlowRank(p, t, side) < FlowRank(p, s, side)
            && LinkOf(t, side).emitted == LinkOf(s, side).emitted))
  }

  lemma NearSends(p: Params, s: State, side: Side) returns (a: Action)
    requires p.Valid() && Flowing(p, s) && s.client.ctx.Some? && s.server.ctx.Some? && Awake(LinkOf(s, side))
    ensures Do(p, s, a).Some? && !a.Copy? && Nearer(p, s, Do(p, s, a).value, side)
  {
    a := NextSend(LinkOf(s, side), side);
    SendGetsCloser(p, s, side);
  }

  lemma NearWakes(p: Params, s: State, side: Side) returns (a: Action)
    requires p.Valid() && Flowing(p, s) && s.client.ctx.Some? && s.server.ctx.Some?
    requires !Awake(LinkOf(s, side)) && CanWake(p, s, side)
    ensures Do(p, s, a).Some? && !a.Copy? && Nearer(p, s, Do(p, s, a).value, side)
  {
    a := WakeGetsCloser(p, s, side);
  }

  /** The far side has sent: fewer datagrams are missing, if any. */
  lemma FarHasSent(p: Params, s: State, t: State, side: Side)
    requires p.Valid() && s.client.ctx.Some? && s.server.ctx.Some?
    requires !CanWake(p, s, side) && Awake(LinkOf(s, Other(side)))
    requires Sent(p, s, t, Other(side)) && t.Get(side) == s.Get(side)
    ensures Nearer(p, s, t, side)
  {
    OneSentIsOneLess(p, s, t, side);
  }

  lemma FarIsCloser(p: Params, s: State, t: State, side: Side)
    requires p.Valid() && s.client.ctx.Some? && s.server.ctx.Some?
    requires !CanWake(p, s, side) && Awake(LinkOf(s, Other(side)))
    requires CloserToSend(LinkOf(s, Other(side)), t.Get(Other(side)).ctx) && t.net == s.net
    requires t.Get(side) == s.Get(side)
    ensures Nearer(p, s, t, side)
  {
  }

  lemma FarSends(p: Params, s: State, side: Side) returns (a: Action)
    requires p.Valid() && Flowing(p, s) && s.client.ctx.Some? && s.server.ctx.Some?
    requires !CanWake(p, s, side) && Awake(LinkOf(s, Other(side)))
    ensures Do(p, s, a).Some? && !a.Copy? && Nearer(p, s, Do(p, s, a).value, side)
  {
    a := NextSend(LinkOf(s, Other(side)), Other(side));
    SendGetsCloser(p, s, Other(side));
    var t := Do(p, s, a).value;
    if Sent(p, s, t, Other(side)) {
      FarHasSent(p, s, t, side);
    } else {
      FarIsCloser(p, s, t, side);
    }
  }

  lemma FarWakes(p: Params, s: State, side: Side) returns (a: Action)
    requires p.Valid() && Flowing(p, s) && s.client.ctx.Some? && s.server.ctx.Some?
    requires !CanWake(p, s, side) && !Awake(LinkOf(s, Other(side))) && CanWake(p, s, Other(side))
    ensures Do(p, s, a).Some? && !a.Copy? && Nearer(p, s, Do(p, s, a).value, side)
  {
    a := WakeGetsCloser(p, s, Other(side));
  }

  lemma FlowGetsCloser(p: Params, s: State, side: Side) returns (a: Action)
    requires p.Valid() && Flowing(p, s) && s.client.ctx.Some? && s.server.ctx.Some? && !Silenced(p, s)
    ensures Do(p, s, a).Some? && !a.Copy? && Nearer(p, s, Do(p, s, a).value, side) && Flowing(p, Do(p, s, a).value)
  {
    if Awake(LinkOf(s, side)) {
      a := NearSends(p, s, side);
    } else if CanWake(p, s, side) {
      a := NearWakes(p, s, side);
    } else if Awake(LinkOf(s, Other(side))) {
      a := FarSends(p, s, side);
    } else {
      a := FarWakes(p, s, side);
    }
    FlowingStays(p, s, a);
  }

  lemma {:induction false} SendsAgain(p: Params, s: State, side: Side) returns (acts: seq<Action>)
    requires p.Valid() && Flowing(p, s) && s.client.ctx.Some? && s.server.ctx.Some? && !Silenced(p, s)
    ensures |acts| <= FlowRank(p, s, side) && WithoutCopies(acts) && EmitsMore(p, s, acts, side)
    decreases FlowRank(p, s, side)
  {
    var a := FlowGetsCloser(p, s, side);
    var t := Do(p, s, a).value;
    if |LinkOf(t, side).emitted| > |LinkOf(s, side).emitted| {
      acts := [a];
      assert acts[..0] == [];
    } else {
      var rest := SendsAgain(p, t, side);
      RunFromNext(p, s, a, t, rest);
      acts := [a] + rest;
    }
  }

  /** `side` has sent another datagram at the end of the run. */
  predicate EmitsMore(p: Params, s: State, acts: seq<Action>, side: Side)
    requires s.Get(side).ctx.Some?
  {
    var r := Run(p, s, acts);
    r.Some? && r.value.Get(side).ctx.Some? && |LinkOf(r.value, side).emitted| > |LinkOf(s, side).emitted|
  }

  /** From every reachable state in which the client is ready, with a usable configuration and a network that
      duplicates nothing, either side can send further datagrams if and only if not both relays need more to
      wake up than is on its way to them; and then it takes no more than twenty-two steps. */
  lemma FlowsUnlessSilenced(p: Params, s: State, side: Side)
    requires p.Valid() && Reachable(p, s) && s.client.phase == Ready && Usable(p.cfg)
    ensures s.client.ctx.Some? && s.server.ctx.Some?
    ensures (exists acts :: WithoutCopies(acts) && EmitsMore(p, s, acts, side)) <==> !Silenced(p, s)
    ensures !Silenced(p, s) ==> exists acts :: |acts| <= 22 && WithoutCopies(acts) && EmitsMore(p, s, acts, side)
  {
    ReachableInv(p, s);
    StillReady(p, s, Server);
    FlowingLinks(p, s, Client);
    FlowingLinks(p, s, Server);
    if Silenced(p, s) {
      forall acts | WithoutCopies(acts) && Run(p, s, acts).Some? ensures !EmitsMore(p, s, acts, side) {
        SilencedForever(p, s, acts);
      }
    } else {
      var acts := SendsAgain(p, s, side);
    }
  }

  // ----- When it goes silent -----

  /** After `k` ticks of `run` that the relay does not get to see. */
  predicate Unheard(p: Params, n: Node, k: nat) {
    && Running(n) && n.ctx.Some?
    && var l := n.ctx.value;
       && l.task == Selecting && l.cap == p.cap
       && |l.unread| == (if k <= p.cap then k else p.cap) && (l.lagged <==> k > p.cap)
  }

  lemma {:induction false} UnheardTicks(p: Params, init: seq<Action>, s0: State, side: Side, k: nat)
    returns (acts: seq<Action>, s: State)
    requires Run(p, Init(p), init) == Some(s0) && Unheard(p, s0.Get(side), 0) && p.cap > 0
    ensures Run(p, Init(p), acts) == Some(s) && Unheard(p, s.Get(side), k)
    ensures s.Get(Other(side)) == s0.Get(Other(side)) && s.net == s0.net
  {
    acts, s := init, s0;
    if k > 0 {
      var before, t := UnheardTicks(p, init, s0, side, k - 1);
      acts, s := OneMoreUnheard(p, before, t, side, k - 1);
    }
  }

  lemma OneMoreUnheard(p: Params, init: seq<Action>, s0: State, side: Side, k: nat)
    returns (acts: seq<Action>, s: State)
    requires Run(p, Init(p), init) == Some(s0) && Unheard(p, s0.Get(side), k) && p.cap > 0
    ensures Run(p, Init(p), acts) == Some(s) && Unheard(p, s.Get(side), k + 1)
    ensures s.Get(Other(side)) == s0.Get(Other(side)) && s.net == s0.net
  {
    s := RunnerStep(s0, RunTick(side)).value;
    RunExtends(p, init, s0, RunTick(side), s);
    acts := init + [RunTick(side)];
  }

  /** Both sides get ready with nothing given or under way. */
  lemma BothGetReady(p: Params) returns (acts: seq<Action>, s: State)
    requires p.Valid() && Usable(p.cfg)
    ensures Run(p, Init(p), acts) == Some(s) && s.net == multiset{}
    ensures Unheard(p, s.client, 0) && Unheard(p, s.server, 0)
  {
    var init, s0 := FirstHandshake(p);
    var s1 := Do(p, s0, ServerDatagram).value;
    RunExtends(p, init, s0, ServerDatagram, s1);
    assert s1.s2c == [Message.Handshake(p.id)];
    s := Do(p, s1, ClientCtrl(1)).value;
    RunExtends(p, init + [ServerDatagram], s1, ClientCtrl(1), s);
    acts := init + [ServerDatagram] + [ClientCtrl(1)];
  }

  /** Two ready sides can silence each other for good: each ticks once more than its channel holds before its
      relay is scheduled. */
  lemma SilenceIsReachable(p: Params)
    requires p.Valid() && Usable(p.cfg)
    ensures exists s :: Reachable(p, s) && s.client.phase == Ready && s.server.phase == Ready && Silenced(p, s)
  {
    var a0, s0 := BothGetReady(p);
    var a1, s1 := UnheardTicks(p, a0, s0, Client, p.cap + 1);
    var a2, s2 := UnheardTicks(p, a1, s1, Server, p.cap + 1);
    assert Reachable(p, s2);
    assert !CanWake(p, s2, Client) && !CanWake(p, s2, Server);
  }
}
